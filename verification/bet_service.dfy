/**
 * The imperative part of the bet service: the `users` and `bets`
 * collections of the store and the operations that read and update them.
 * The logged-in user is an explicit `session` argument.
 */
module BetService {
  import opened Wrappers
  import opened BetLogic
  import MatchService

  datatype BetError =
    | MissingParameters        // "Tous les paramètres sont requis"
    | NonPositiveAmount        // "Le montant doit être positif"
    | NotLoggedIn              // "Vous devez être connecté ..."
    | UserNotFound             // the store has no such user record
    | InsufficientPoints(points: int, amount: int)  // "Points insuffisants ..."
    | StoreError               // a write the store did not carry out
    | MissingBetIdOrStatus     // "ID du pari et statut requis"
    | InvalidStatus            // "Statut invalide (won ou lost)"
    | BetNotFound              // the store has no such bet record
    | MissingMatchId           // "ID de match requis"

  /** Why `canUserBet` refuses. */
  datatype Refusal =
    | NoSession         // "Non connecté"
    | MatchOver         // "Le match est terminé"
    | PendingBetExists  // "Vous avez déjà parié sur ce match"
    | LookupFailed      // "Erreur de vérification"

  datatype Eligibility = Allowed | Refused(reason: Refusal)

  /** One change of a balance: a stake debited or a payout credited. */
  datatype MoveKind = Stake | Payout
  datatype Movement = Movement(user: UserId, kind: MoveKind, amount: int)

  /** The amounts of the given kind moved on one user's balance, in journal order. */
  ghost function Amounts(journal: seq<Movement>, u: UserId, k: MoveKind): seq<int> {
    if journal == [] then []
    else (if journal[0].user == u && journal[0].kind == k then [journal[0].amount] else [])
         + Amounts(journal[1..], u, k)
  }

  ghost function Sum(s: seq<int>): int {
    if s == [] then 0 else s[0] + Sum(s[1..])
  }

  lemma {:induction false} AmountsAppend(journal: seq<Movement>, m: Movement, u: UserId, k: MoveKind)
    ensures Amounts(journal + [m], u, k) ==
            Amounts(journal, u, k) + (if m.user == u && m.kind == k then [m.amount] else [])
  {
    if journal != [] {
      assert (journal + [m])[1..] == journal[1..] + [m];
      AmountsAppend(journal[1..], m, u, k);
    }
  }

  lemma {:induction false} SumAppend(s: seq<int>, x: int)
    ensures Sum(s + [x]) == Sum(s) + x
  {
    if s != [] {
      assert (s + [x])[1..] == s[1..] + [x];
      SumAppend(s[1..], x);
    }
  }

  /** Recording a movement changes only its own user's tally of its own kind. */
  lemma Record(journal: seq<Movement>, m: Movement, u: UserId, k: MoveKind)
    ensures m.user == u && m.kind == k ==>
      Sum(Amounts(journal + [m], u, k)) == Sum(Amounts(journal, u, k)) + m.amount &&
      |Amounts(journal + [m], u, k)| == |Amounts(journal, u, k)| + 1
    ensures !(m.user == u && m.kind == k) ==> Amounts(journal + [m], u, k) == Amounts(journal, u, k)
  {
    AmountsAppend(journal, m, u, k);
    SumAppend(Amounts(journal, u, k), m.amount);
  }

  /** A user without any movement has no stake and no payout. */
  lemma {:induction false} NoMovements(journal: seq<Movement>, u: UserId, k: MoveKind)
    requires forall m | m in journal :: m.user != u
    ensures Amounts(journal, u, k) == []
  {
    if journal != [] {
      assert journal[0] in journal;
      assert forall m | m in journal[1..] :: m in journal;
      NoMovements(journal[1..], u, k);
    }
  }

  /** A balance after one movement: a stake is debited and counted in `totalBets`, a payout credited and counted in `wonBets`. */
  function Applied(user: User, m: Movement): User {
    match m.kind
    case Stake => User(user.points - m.amount, user.totalBets + 1, user.wonBets)
    case Payout => User(user.points + m.amount, user.totalBets, user.wonBets + 1)
  }

  /** One user's record agrees with the journal and the balance is not negative. */
  ghost predicate Balanced(user: User, journal: seq<Movement>, u: UserId) {
    var stakes := Amounts(journal, u, Stake);
    var payouts := Amounts(journal, u, Payout);
    user.points == InitialPoints - Sum(stakes) + Sum(payouts) &&
    user.points >= 0 &&
    user.totalBets == |stakes| && user.wonBets == |payouts|
  }

  /**
   * Conservation of points: every known user's balance is the initial
   * balance minus all their stakes plus all their payouts.
   */
  ghost predicate Conserved(users: map<UserId, User>, journal: seq<Movement>) {
    (forall m | m in journal :: m.user in users) &&
    (forall u | u in users :: Balanced(users[u], journal, u))
  }

  /** Applying a covered stake or a positive payout and recording it keeps the points conserved. */
  lemma ApplyMovement(users: map<UserId, User>, journal: seq<Movement>, m: Movement)
    requires Conserved(users, journal)
    requires m.user in users && m.amount > 0
    requires m.kind == Stake ==> users[m.user].points >= m.amount
    ensures Conserved(users[m.user := Applied(users[m.user], m)], journal + [m])
  {
    var users' := users[m.user := Applied(users[m.user], m)];
    forall u | u in users' ensures Balanced(users'[u], journal + [m], u) {
      Record(journal, m, u, Stake);
      Record(journal, m, u, Payout);
    }
  }

  /** A newcomer with the initial balance keeps the points conserved. */
  lemma AddAccount(users: map<UserId, User>, journal: seq<Movement>, u: UserId)
    requires Conserved(users, journal) && u !in users
    ensures Conserved(users[u := User(InitialPoints, 0, 0)], journal)
  {
    NoMovements(journal, u, Stake);
    NoMovements(journal, u, Payout);
  }

  /** Each bet sits at the position of its id, with a positive stake and a status the services write. */
  ghost predicate WellFormed(bets: seq<Bet>) {
    (forall i | 0 <= i < |bets| :: bets[i].id == i && bets[i].amount > 0) && KnownStatuses(bets)
  }

  /** Writing a won or lost status and a result into one bet keeps the bets well formed. */
  lemma SettleKeepsShape(bets: seq<Bet>, id: BetId, status: string, result: Option<int>)
    requires WellFormed(bets) && id < |bets|
    ensures WellFormed(bets[id := Settled(bets[id], status, result)])
  {
  }

  /** Appending a pending bet with a positive stake at the next position keeps the bets well formed. */
  lemma AppendKeepsShape(bets: seq<Bet>, b: Bet)
    requires WellFormed(bets) && b.id == |bets| && b.amount > 0 && b.status == Pending
    ensures WellFormed(bets + [b])
  {
  }

  /** The arguments `placeBet` requires, each truthy. */
  predicate ArgumentsGiven(matchId: MatchId, teamBet: string, amount: int, potentialWin: int) {
    matchId != "" && teamBet != "" && amount != 0 && potentialWin != 0
  }

  /**
   * The checks `placeBet` runs before it writes, in their order: the
   * arguments, the sign of the amount, the session, the user record and
   * the balance. `None` when all pass.
   */
  function PlaceBetRefusal(users: map<UserId, User>, session: Option<UserId>, matchId: MatchId,
                           teamBet: string, amount: int, potentialWin: int): (e: Option<BetError>)
    ensures !ArgumentsGiven(matchId, teamBet, amount, potentialWin) ==> e == Some(MissingParameters)
    ensures ArgumentsGiven(matchId, teamBet, amount, potentialWin) && amount < 0 ==>
              e == Some(NonPositiveAmount)
    ensures ArgumentsGiven(matchId, teamBet, amount, potentialWin) && amount > 0 && session.None? ==>
              e == Some(NotLoggedIn)
    ensures (ArgumentsGiven(matchId, teamBet, amount, potentialWin) && amount > 0 && session.Some? &&
             session.value !in users) ==> e == Some(UserNotFound)
    ensures (ArgumentsGiven(matchId, teamBet, amount, potentialWin) && amount > 0 && session.Some? &&
             session.value in users && users[session.value].points < amount) ==>
              e == Some(InsufficientPoints(users[session.value].points, amount))
    ensures e.None? <==>
              ArgumentsGiven(matchId, teamBet, amount, potentialWin) && amount > 0 &&
              session.Some? && session.value in users && users[session.value].points >= amount
  {
    if !ArgumentsGiven(matchId, teamBet, amount, potentialWin) then Some(MissingParameters)
    else if amount <= 0 then Some(NonPositiveAmount)
    else if session.None? then Some(NotLoggedIn)
    else if session.value !in users then Some(UserNotFound)
    else if users[session.value].points < amount then
      Some(InsufficientPoints(users[session.value].points, amount))
    else None
  }

  /**
   * The checks `updateBetResult` runs before it writes, in their order: a
   * bet id and a status are given, the status is `won` or `lost`, and the
   * store holds the bet. `None` when all pass.
   */
  function SettlementRefusal(betId: Option<BetId>, status: string, betCount: nat): (e: Option<BetError>)
    ensures betId.None? || status == "" ==> e == Some(MissingBetIdOrStatus)
    ensures betId.Some? && status != "" && status != "won" && status != "lost" ==> e == Some(InvalidStatus)
    ensures (betId.Some? && (status == "won" || status == "lost") && betId.value >= betCount) ==>
              e == Some(BetNotFound)
    ensures e.None? <==> betId.Some? && (status == "won" || status == "lost") && betId.value < betCount
  {
    if betId.None? || status == "" then Some(MissingBetIdOrStatus)
    else if status != "won" && status != "lost" then Some(InvalidStatus)
    else if betId.value >= betCount then Some(BetNotFound)
    else None
  }

  /** Whether an `updateBetResult` call credits the bet's owner. */
  predicate Credits(status: string, result: Option<int>) {
    status == "won" && result.Some? && result.value > 0
  }

  /** The bet record after `updateBetResult` wrote a status and a result (`result || 0`). */
  function Settled(b: Bet, status: string, result: Option<int>): Bet {
    b.(status := if status == "won" then Won else Lost,
       result := if result.Some? then result.value else 0)
  }

  class Ledger {
    /** The store's `matches` collection, which the bet service only reads. */
    const matchStore: MatchService.MatchStore
    var users: map<UserId, User>
    /** The `bets` collection in creation order. */
    var bets: seq<Bet>
    /** Every stake and payout applied to a balance, in order. */
    ghost var journal: seq<Movement>

    /**
     * Each bet sits at the position of its id, with a positive stake and a
     * status the services write; each balance is the initial balance minus
     * its stakes plus its payouts, is never negative, and the counters count
     * the stakes and the payouts.
     */
    ghost predicate Valid()
      reads this
    {
      WellFormed(bets) && Conserved(users, journal)
    }

    constructor (store: MatchService.MatchStore)
      ensures Valid()
      ensures matchStore == store && users == map[] && bets == [] && journal == []
    {
      matchStore := store;
      users := map[];
      bets := [];
      journal := [];
    }

    /**
     * The account the sign-in creates for a new user: 100 points and no
     * bets. A known user is left as is.
     */
    method SignUp(uid: UserId)
      requires Valid()
      modifies this
      ensures Valid()
      ensures bets == old(bets) && journal == old(journal)
      ensures uid in old(users) ==> users == old(users)
      ensures uid !in old(users) ==> users == old(users)[uid := User(InitialPoints, 0, 0)]
    {
      if uid !in users {
        AddAccount(users, journal, uid);
        users := users[uid := User(InitialPoints, 0, 0)];
      }
    }

    /**
     * `placeBet`: the argument checks, the session and the balance check,
     * then the bet is created and, in a second write that may fail
     * (`debitFails`), the stake is debited and `totalBets` counted.
     */
    method PlaceBet(session: Option<UserId>, matchId: MatchId, teamBet: string,
                    amount: int, potentialWin: int, debitFails: bool)
      returns (r: Result<Bet, BetError>)
      requires Valid()
      modifies this
      ensures var refusal := PlaceBetRefusal(old(users), session, matchId, teamBet, amount, potentialWin);
              refusal.Some? ==>
                r == Failure(refusal.value) &&
                users == old(users) && bets == old(bets) && journal == old(journal)
      ensures var refusal := PlaceBetRefusal(old(users), session, matchId, teamBet, amount, potentialWin);
              refusal.None? ==>
                bets == old(bets) + [Bet(|old(bets)|, session.value, matchId, teamBet,
                                         amount, potentialWin, Pending, 0)]
      ensures r == Failure(StoreError) ==> debitFails && users == old(users) && journal == old(journal)
      ensures r.Success? ==>
                !debitFails && r.value == bets[|old(bets)|] &&
                users == old(users)[session.value :=
                           Applied(old(users)[session.value], Movement(session.value, Stake, amount))] &&
                journal == old(journal) + [Movement(session.value, Stake, amount)]
      ensures PlaceBetRefusal(old(users), session, matchId, teamBet, amount, potentialWin).None? ==>
                r.Success? || r == Failure(StoreError)
      ensures Valid()
    {
      var refusal := PlaceBetRefusal(users, session, matchId, teamBet, amount, potentialWin);
      if refusal.Some? {
        return Failure(refusal.value);
      }
      var uid := session.value;
      var current := users[uid];
      var bet := Bet(|bets|, uid, matchId, teamBet, amount, potentialWin, Pending, 0);
      AppendKeepsShape(bets, bet);
      bets := bets + [bet];
      if debitFails {
        return Failure(StoreError);
      }
      var m := Movement(uid, Stake, amount);
      ApplyMovement(users, journal, m);
      users := users[uid := Applied(current, m)];
      journal := journal + [m];
      return Success(bet);
    }

    /**
     * `updateBetResult`: writes `won` or `lost` and the result (missing
     * means 0) into the bet, whatever its current status, then credits a
     * positive result of a `won` bet to its owner and counts it in
     * `wonBets`.
     */
    method UpdateBetResult(betId: Option<BetId>, status: string, result: Option<int>)
      returns (r: Result<Bet, BetError>)
      requires Valid()
      modifies this
      ensures var refusal := SettlementRefusal(betId, status, |old(bets)|);
              refusal.Some? ==>
                r == Failure(refusal.value) &&
                users == old(users) && bets == old(bets) && journal == old(journal)
      ensures SettlementRefusal(betId, status, |old(bets)|).None? ==>
                bets == old(bets)[betId.value := Settled(old(bets)[betId.value], status, result)]
      ensures r == Failure(UserNotFound) ==>
                Credits(status, result) && old(bets)[betId.value].user !in old(users) &&
                users == old(users) && journal == old(journal)
      ensures r.Success? ==> r.value == bets[betId.value]
      ensures r.Success? && !Credits(status, result) ==> users == old(users) && journal == old(journal)
      ensures r.Success? && Credits(status, result) ==>
                var owner := old(bets)[betId.value].user;
                owner in old(users) &&
                users == old(users)[owner := Applied(old(users)[owner], Movement(owner, Payout, result.value))] &&
                journal == old(journal) + [Movement(owner, Payout, result.value)]
      ensures SettlementRefusal(betId, status, |old(bets)|).None? ==> r.Success? || r == Failure(UserNotFound)
      ensures Valid()
    {
      var refusal := SettlementRefusal(betId, status, |bets|);
      if refusal.Some? {
        return Failure(refusal.value);
      }
      var id := betId.value;
      var updated := Settled(bets[id], status, result);
      SettleKeepsShape(bets, id, status, result);
      bets := bets[id := updated];
      if Credits(status, result) {
        var owner := updated.user;
        if owner !in users {
          return Failure(UserNotFound);
        }
        var was := users[owner];
        var m := Movement(owner, Payout, result.value);
        ApplyMovement(users, journal, m);
        users := users[owner := Applied(was, m)];
        journal := journal + [m];
      }
      return Success(updated);
    }

    /** A pending bet of this user on this match is in the store. */
    ghost predicate HasPendingBet(u: UserId, matchId: MatchId)
      reads this
    {
      exists i | 0 <= i < |bets| :: bets[i].user == u && bets[i].matchId == matchId && bets[i].status == Pending
    }

    /**
     * `canUserBet`: refuses without a session, when the match cannot be
     * read, when it is finished, or when a pending bet on it exists;
     * upcoming and live matches are otherwise open.
     */
    method CanUserBet(session: Option<UserId>, matchId: MatchId) returns (e: Eligibility)
      ensures session.None? ==> e == Refused(NoSession)
      ensures session.Some? && (matchId == "" || matchId !in matchStore.matches) ==>
                e == Refused(LookupFailed)
      ensures (session.Some? && matchId != "" && matchId in matchStore.matches &&
               matchStore.matches[matchId].status == "finished") ==> e == Refused(MatchOver)
      ensures (session.Some? && matchId != "" && matchId in matchStore.matches &&
               matchStore.matches[matchId].status != "finished" && HasPendingBet(session.value, matchId)) ==>
                e == Refused(PendingBetExists)
      ensures e == Allowed <==>
                session.Some? && matchId != "" && matchId in matchStore.matches &&
                matchStore.matches[matchId].status != "finished" && !HasPendingBet(session.value, matchId)
    {
      if session.None? {
        return Refused(NoSession);
      }
      var uid := session.value;
      var found := matchStore.GetMatchById(matchId);
      if found.Failure? {
        return Refused(LookupFailed);
      }
      if found.value.status == "finished" {
        return Refused(MatchOver);
      }
      var existing := Selected(bets, Filter(Some(uid), Some(matchId), Some(Pending)));
      if |existing| > 0 {
        assert existing[0] in existing;
        return Refused(PendingBetExists);
      }
      assert forall i | 0 <= i < |bets| :: bets[i] in bets;
      return Allowed;
    }

    /** `getUserBets`: the session's bets, newest first. */
    method GetUserBets(session: Option<UserId>) returns (r: Result<seq<Bet>, BetError>)
      requires Valid()
      ensures session.None? ==> r == Failure(NotLoggedIn)
      ensures r.Success? <==> session.Some?
      ensures r.Success? ==> NewestFirst(r.value)
      ensures r.Success? ==> forall b :: b in r.value <==> b in bets && b.user == session.value
    {
      if session.None? {
        return Failure(NotLoggedIn);
      }
      SelectedNewestFirst(bets, Filter(Some(session.value), None, None));
      return Success(Selected(bets, Filter(Some(session.value), None, None)));
    }

    /** `getBetsByMatch`: the session's bets on one match, newest first. */
    method GetBetsByMatch(session: Option<UserId>, matchId: MatchId) returns (r: Result<seq<Bet>, BetError>)
      requires Valid()
      ensures session.None? ==> r == Failure(NotLoggedIn)
      ensures session.Some? && matchId == "" ==> r == Failure(MissingMatchId)
      ensures r.Success? <==> session.Some? && matchId != ""
      ensures r.Success? ==> NewestFirst(r.value)
      ensures r.Success? ==>
                forall b :: b in r.value <==> b in bets && b.user == session.value && b.matchId == matchId
    {
      if session.None? {
        return Failure(NotLoggedIn);
      }
      if matchId == "" {
        return Failure(MissingMatchId);
      }
      SelectedNewestFirst(bets, Filter(Some(session.value), Some(matchId), None));
      return Success(Selected(bets, Filter(Some(session.value), Some(matchId), None)));
    }

    /** `getUserBetStats`: the statistics over all of the session's bets. */
    method GetUserBetStats(session: Option<UserId>) returns (r: Result<BetStats, BetError>)
      requires Valid()
      ensures session.None? ==> r == Failure(NotLoggedIn)
      ensures session.Some? && session.value !in users ==> r == Failure(UserNotFound)
      ensures r.Success? <==> session.Some? && session.value in users
      ensures r.Success? ==>
                var mine := Selected(bets, Filter(Some(session.value), None, None));
                r.value.totalBets == |mine| &&
                (forall b | b in mine :: b in bets && b.user == session.value) &&
                r.value.currentPoints == users[session.value].points
      ensures r.Success? ==> r.value.totalWon + r.value.totalLost + r.value.pending == r.value.totalBets
      ensures r.Success? ==> (r.value.totalAmountBet == 0 <==> r.value.totalBets == 0)
      ensures r.Success? ==> r.value.currentPoints >= 0
      ensures r.Success? ==>
                r.value == Aggregate(Selected(bets, Filter(Some(session.value), None, None)),
                                     users[session.value].points)
    {
      if session.None? {
        return Failure(NotLoggedIn);
      }
      var uid := session.value;
      if uid !in users {
        return Failure(UserNotFound);
      }
      var mine := Selected(bets, Filter(Some(uid), None, None));
      assert Balanced(users[uid], journal, uid);
      return Success(Aggregate(mine, users[uid].points));
    }
  }

  /**
   * A client of the ledger: settling the same bet as `won` twice credits
   * its owner twice, because nothing checks that the bet is still pending.
   */
  method SettlingTwiceCreditsTwice(ledger: Ledger, owner: UserId)
    requires ledger.Valid() && |ledger.bets| > 0 && ledger.bets[0].user == owner && owner in ledger.users
    modifies ledger
  {
    var before := ledger.users[owner];
    var first := ledger.UpdateBetResult(Some(0), "won", Some(120));
    var second := ledger.UpdateBetResult(Some(0), "won", Some(120));
    assert second.Success? && ledger.users[owner].points == before.points + 240;
    assert ledger.users[owner].wonBets == before.wonBets + 2;
  }

  /**
   * A client of the ledger: a stake whose payout rounds to 0 is refused as
   * a missing argument, since `placeBet` treats a zero `potentialWin` as absent.
   */
  method TinyPayoutIsRefused(store: MatchService.MatchStore) {
    var ledger := new Ledger(store);
    ledger.SignUp("bob");
    var payout := CalculatePotentialWin(1.0, 0.4);
    assert payout == 0;
    var placed := ledger.PlaceBet(Some("bob"), "m1", "T1", 1, payout, false);
    assert placed == Failure(MissingParameters) && ledger.users["bob"].points == 100;
  }
}
