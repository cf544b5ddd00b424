/** The persistent store of `GameDatabase` as a value: one map per keyed table, one sequence per
    append-only table, and the next AUTOINCREMENT id of each keyed table. Each function below is
    the effect of one `GameDatabase` operation on that value; the class in `database.dfy` is
    proved to perform exactly these effects. Times are whole seconds passed in as `now`. */
module Tables {
  import opened Wrappers
  import opened Config
  import opened Records

  datatype Store = Store(
    players: map<int, Player>,
    businesses: map<int, Business>,
    nextBusinessId: int,
    transactions: seq<Transaction>,
    achievements: seq<AchievementRow>,
    loans: map<int, Loan>,
    nextLoanId: int,
    investments: map<int, Investment>,
    nextInvestmentId: int,
    productions: map<int, Production>,
    nextProductionId: int,
    pvpProfiles: map<int, PvpProfile>,
    pvpMatches: seq<PvpMatch>,
    cooldowns: map<(int, string), int>)

  /** The store right after `init_database` on a new file. */
  function Empty(): (s: Store)
    ensures Valid(s)
  {
    Store(map[], map[], 1, [], [], map[], 1, map[], 1, map[], 1, map[], [], map[])
  }

  /** AUTOINCREMENT ids: every stored id is positive and below the next one to be handed out,
      a business row carries its own key, and every investment has a positive volatility. */
  predicate Valid(s: Store)
  {
    && s.nextBusinessId >= 1 && s.nextLoanId >= 1 && s.nextInvestmentId >= 1 && s.nextProductionId >= 1
    && (forall id | id in s.businesses :: 1 <= id < s.nextBusinessId && s.businesses[id].id == id)
    && (forall id | id in s.loans :: 1 <= id < s.nextLoanId)
    && (forall id | id in s.investments :: 1 <= id < s.nextInvestmentId && s.investments[id].volatility > 0.0)
    && (forall id | id in s.productions :: 1 <= id < s.nextProductionId)
  }

  // ---------------------------------------------------------------------------------------
  // Players and the balance ledger
  // ---------------------------------------------------------------------------------------

  /** The column defaults of a new `players` row. */
  function FreshPlayer(username: string, firstName: string, now: int): Player
  {
    Player(username, firstName, 10000.0, 0.0, 0.0, 1.0, 1, 0, now)
  }

  /** `add_player`: INSERT OR IGNORE, so an existing row is kept as it is. */
  function AddPlayer(s: Store, userId: int, username: string, firstName: string, now: int): (r: Store)
    ensures r.(players := s.players) == s
    ensures r.players.Keys == s.players.Keys + {userId}
    ensures userId in s.players ==> r == s
    ensures userId !in s.players ==> r.players[userId] == FreshPlayer(username, firstName, now)
    ensures forall id | id in s.players :: r.players[id] == s.players[id]
  {
    if userId in s.players then s
    else s.(players := s.players[userId := FreshPlayer(username, firstName, now)])
  }

  /** Balance minus everything ever booked as income plus everything booked as expense: what
      the balance would be without the ledger's bookings. */
  function Unbooked(p: Player): real
  {
    p.balance - p.totalIncome + p.totalExpenses
  }

  /** The player row after `update_player_balance` has booked `amount`. */
  function Booked(p: Player, amount: real, now: int): (q: Player)
    ensures q.balance == p.balance + amount
    ensures q.totalIncome >= p.totalIncome && q.totalExpenses >= p.totalExpenses
    ensures Unbooked(q) == Unbooked(p)
    ensures q.(balance := p.balance, totalIncome := p.totalIncome, totalExpenses := p.totalExpenses, lastActive := p.lastActive) == p
  {
    p.(balance := p.balance + amount,
       totalIncome := p.totalIncome + (if amount > 0.0 then amount else 0.0),
       totalExpenses := p.totalExpenses + (if amount < 0.0 then -amount else 0.0),
       lastActive := now)
  }

  /** `update_player_balance`: the UPDATE touches only an existing row, and the audit row is
      appended whether or not the player exists. */
  function UpdatePlayerBalance(s: Store, userId: int, amount: real, kind: string, description: string, now: int): (r: Store)
    ensures r.(players := s.players, transactions := s.transactions) == s
    ensures r.transactions == s.transactions + [Transaction(userId, None, kind, amount, description, now)]
    ensures r.players.Keys == s.players.Keys
    ensures forall id | id in s.players && id != userId :: r.players[id] == s.players[id]
    ensures userId in s.players ==> r.players[userId] == Booked(s.players[userId], amount, now)
  {
    var players := if userId in s.players then s.players[userId := Booked(s.players[userId], amount, now)] else s.players;
    s.(players := players, transactions := s.transactions + [Transaction(userId, None, kind, amount, description, now)])
  }

  /** Income is booked only for positive amounts, expenses only for negative ones, and never
      both: the two totals together move by exactly |amount|. */
  lemma BookingSplitsByDirection(p: Player, amount: real, now: int)
    ensures Booked(p, amount, now).totalIncome - p.totalIncome == (if amount > 0.0 then amount else 0.0)
    ensures Booked(p, amount, now).totalExpenses - p.totalExpenses == (if amount < 0.0 then -amount else 0.0)
    ensures (Booked(p, amount, now).totalIncome - p.totalIncome) * (Booked(p, amount, now).totalExpenses - p.totalExpenses) == 0.0
  {
  }

  /** `update_player_popularity`: the popularity never drops below 0. */
  function UpdatePlayerPopularity(s: Store, userId: int, delta: real, now: int): (r: Store)
    ensures r.(players := s.players) == s
    ensures r.players.Keys == s.players.Keys
    ensures forall id | id in s.players && id != userId :: r.players[id] == s.players[id]
    ensures userId in s.players ==> r.players[userId].popularity >= 0.0
    ensures userId in s.players ==> r.players[userId].popularity == Max(s.players[userId].popularity + delta, 0.0)
    ensures userId in s.players ==> r.players[userId] == s.players[userId].(popularity := r.players[userId].popularity, lastActive := now)
  {
    if userId in s.players then
      var p := s.players[userId];
      s.(players := s.players[userId := p.(popularity := Max(p.popularity + delta, 0.0), lastActive := now)])
    else s
  }

  /** `add_experience`: the new experience, or `None` when there is no such player (the read-back
      fails and nothing is committed). */
  function AddExperience(s: Store, userId: int, gained: int, now: int): (r: (Store, Option<int>))
    ensures r.0.(players := s.players) == s
    ensures r.1.Some? <==> userId in s.players
    ensures r.1.None? ==> r.0 == s
    ensures r.1.Some? ==> r.1.value == s.players[userId].experience + gained
    ensures r.1.Some? ==> r.0.players == s.players[userId := s.players[userId].(experience := r.1.value, lastActive := now)]
  {
    if userId in s.players then
      var p := s.players[userId];
      (s.(players := s.players[userId := p.(experience := p.experience + gained, lastActive := now)]), Some(p.experience + gained))
    else (s, None)
  }

  /** `apply_level_up`: sets level and experience and adds the bonuses; no audit row is written. */
  function ApplyLevelUp(s: Store, userId: int, newLevel: int, remainingExperience: int, balanceBonus: real,
                        popularityBonus: real, now: int): (r: Store)
    ensures r.(players := s.players) == s
    ensures r.transactions == s.transactions
    ensures r.players.Keys == s.players.Keys
    ensures forall id | id in s.players && id != userId :: r.players[id] == s.players[id]
    ensures userId in s.players ==> r.players[userId].level == newLevel && r.players[userId].experience == remainingExperience
    ensures userId in s.players ==> r.players[userId].balance == s.players[userId].balance + balanceBonus
    ensures userId in s.players ==> r.players[userId].popularity == s.players[userId].popularity + popularityBonus
    ensures userId in s.players ==> r.players[userId].totalIncome == s.players[userId].totalIncome
  {
    if userId in s.players then
      var p := s.players[userId];
      s.(players := s.players[userId := p.(level := newLevel, experience := remainingExperience,
        balance := p.balance + balanceBonus, popularity := p.popularity + popularityBonus, lastActive := now)])
    else s
  }

  /** The ledger identity: booking through `update_player_balance` never changes a player's
      unbooked balance, while a level-up bonus changes it by the bonus without an audit row. */
  lemma LevelUpBonusBypassesLedger(s: Store, userId: int, amount: real, kind: string, description: string,
                                    newLevel: int, remainingExperience: int, bonus: real, popularityBonus: real, now: int)
    requires userId in s.players
    ensures Unbooked(UpdatePlayerBalance(s, userId, amount, kind, description, now).players[userId]) == Unbooked(s.players[userId])
    ensures var r := ApplyLevelUp(s, userId, newLevel, remainingExperience, bonus, popularityBonus, now);
      Unbooked(r.players[userId]) == Unbooked(s.players[userId]) + bonus && |r.transactions| == |s.transactions|
  {
  }

  // ---------------------------------------------------------------------------------------
  // Businesses
  // ---------------------------------------------------------------------------------------

  /** `add_business`: a new row with level 1 and no improvements under the next id. */
  function AddBusiness(s: Store, userId: int, businessType: string, name: string, income: real, expenses: real): (r: Store)
    ensures r.(businesses := s.businesses, nextBusinessId := s.nextBusinessId) == s
    ensures r.nextBusinessId == s.nextBusinessId + 1
    ensures r.businesses == s.businesses[s.nextBusinessId := Business(s.nextBusinessId, userId, businessType, name, income, expenses, 1, [], None)]
    ensures Valid(s) ==> Valid(r) && s.nextBusinessId !in s.businesses
  {
    var id := s.nextBusinessId;
    s.(businesses := s.businesses[id := Business(id, userId, businessType, name, income, expenses, 1, [], None)],
       nextBusinessId := id + 1)
  }

  /** Whether `update_business` has anything to set (it reports `False` otherwise). */
  function HasUpdates(income: Option<real>, expenses: Option<real>, level: Option<int>, improvements: Option<seq<string>>): bool
  {
    income.Some? || expenses.Some? || level.Some? || improvements.Some?
  }

  /** `update_business`: sets exactly the given columns of the row, if it exists. */
  function UpdateBusiness(s: Store, businessId: int, income: Option<real>, expenses: Option<real>, level: Option<int>,
                          improvements: Option<seq<string>>): (r: Store)
    ensures r.(businesses := s.businesses) == s
    ensures r.businesses.Keys == s.businesses.Keys
    ensures forall id | id in s.businesses && id != businessId :: r.businesses[id] == s.businesses[id]
    ensures businessId in s.businesses ==> var b, c := s.businesses[businessId], r.businesses[businessId];
      && c.income == income.GetOr(b.income) && c.expenses == expenses.GetOr(b.expenses)
      && c.level == level.GetOr(b.level) && c.improvements == improvements.GetOr(b.improvements)
      && c.(income := b.income, expenses := b.expenses, level := b.level, improvements := b.improvements) == b
    ensures Valid(s) ==> Valid(r)
  {
    if businessId in s.businesses then
      var b := s.businesses[businessId];
      s.(businesses := s.businesses[businessId := b.(income := income.GetOr(b.income), expenses := expenses.GetOr(b.expenses),
        level := level.GetOr(b.level), improvements := improvements.GetOr(b.improvements))])
    else s
  }

  /** The rows of `user_id`'s businesses among the ids below `n`, in id order. */
  function OwnedBelow(s: Store, userId: int, n: int): (r: seq<Business>)
    ensures forall b | b in r :: b.id in s.businesses && s.businesses[b.id] == b && b.ownerId == userId && b.id < n
    decreases n
  {
    if n <= 1 then []
    else
      var rest := OwnedBelow(s, userId, n - 1);
      if n - 1 in s.businesses && s.businesses[n - 1].ownerId == userId && s.businesses[n - 1].id == n - 1
      then rest + [s.businesses[n - 1]] else rest
  }

  /** `get_player_businesses`: the player's rows in id order. */
  function BusinessesOf(s: Store, userId: int): (r: seq<Business>)
    ensures forall b | b in r :: b.id in s.businesses && s.businesses[b.id] == b && b.ownerId == userId
  {
    OwnedBelow(s, userId, s.nextBusinessId)
  }

  /** Every business the player owns is listed. */
  lemma {:induction false} OwnedBelowComplete(s: Store, userId: int, n: int, id: int)
    requires Valid(s) && id in s.businesses && s.businesses[id].ownerId == userId && id < n
    ensures s.businesses[id] in OwnedBelow(s, userId, n)
    decreases n
  {
    if id < n - 1 {
      OwnedBelowComplete(s, userId, n - 1, id);
    }
  }

  lemma BusinessesOfComplete(s: Store, userId: int, id: int)
    requires Valid(s) && id in s.businesses && s.businesses[id].ownerId == userId
    ensures s.businesses[id] in BusinessesOf(s, userId)
  {
    OwnedBelowComplete(s, userId, s.nextBusinessId, id);
  }

  /** In a valid store the listing holds every business the player owns. */
  lemma BusinessesOfListsAllOwned(s: Store, userId: int)
    ensures Valid(s) ==>
      forall id | id in s.businesses && s.businesses[id].ownerId == userId :: s.businesses[id] in BusinessesOf(s, userId)
  {
    if Valid(s) {
      forall id | id in s.businesses && s.businesses[id].ownerId == userId
        ensures s.businesses[id] in BusinessesOf(s, userId)
      {
        BusinessesOfComplete(s, userId, id);
      }
    }
  }

  /** Two stores that agree on the businesses below `n` list the same ones. */
  lemma {:induction false} OwnedBelowAgree(s: Store, t: Store, userId: int, n: int)
    requires forall id | id < n :: (id in s.businesses <==> id in t.businesses)
    requires forall id | id < n && id in s.businesses :: s.businesses[id] == t.businesses[id]
    ensures OwnedBelow(s, userId, n) == OwnedBelow(t, userId, n)
    decreases n
  {
    if n > 1 {
      OwnedBelowAgree(s, t, userId, n - 1);
    }
  }

  /** A new business is listed last among its owner's, and nobody else's list changes. */
  lemma AddBusinessListsIt(s: Store, userId: int, businessType: string, name: string, income: real, expenses: real, ownerId: int)
    requires Valid(s)
    ensures var r := AddBusiness(s, userId, businessType, name, income, expenses);
      BusinessesOf(r, ownerId) == BusinessesOf(s, ownerId) + (if ownerId == userId then [r.businesses[s.nextBusinessId]] else [])
  {
    var r := AddBusiness(s, userId, businessType, name, income, expenses);
    OwnedBelowAgree(s, r, ownerId, s.nextBusinessId);
  }

  /** What selling the improvements fetches: 70% of the table cost of each known id. */
  function ImprovementsSaleValue(improvements: seq<string>): (r: real)
    ensures r >= 0.0
  {
    if improvements == [] then 0.0
    else
      var id := improvements[|improvements| - 1];
      ImprovementsSaleValue(improvements[..|improvements| - 1])
      + (if ImprovementOf(id).Some? then ImprovementOf(id).value.cost * 0.7 else 0.0)
  }

  /** The price `sell_business` pays: ten times the income, the improvements' value and 1000 per
      level above the first. */
  function SalePrice(b: Business): (r: real)
    ensures b.income >= 0.0 && b.level >= 1 ==> r >= b.income * 10.0
    ensures r >= b.income * 10.0 + (b.level - 1) as real * 1000.0
  {
    b.income * 10.0 + ImprovementsSaleValue(b.improvements) + (b.level - 1) as real * 1000.0
  }

  /** Each known improvement adds 70% of its cost to the price; an unknown id adds nothing. */
  lemma {:induction false} SalePriceGrowsByImprovement(b: Business, id: string)
    ensures SalePrice(b.(improvements := b.improvements + [id])) - SalePrice(b)
      == (if ImprovementOf(id).Some? then ImprovementOf(id).value.cost * 0.7 else 0.0)
  {
    var ids := b.improvements + [id];
    assert ids[..|ids| - 1] == b.improvements;
  }

  /** The sale price, or `None` when the row is missing or belongs to someone else. */
  function SaleOf(s: Store, userId: int, businessId: int): (r: Option<real>)
    ensures r.Some? <==> businessId in s.businesses && s.businesses[businessId].ownerId == userId
    ensures r.Some? ==> r.value == SalePrice(s.businesses[businessId])
  {
    if businessId in s.businesses && s.businesses[businessId].ownerId == userId then Some(SalePrice(s.businesses[businessId]))
    else None
  }

  /** `sell_business`: credits the price to the balance only (no totals, no activity stamp),
      deletes the row and writes a `business_sale` audit row. */
  function SellBusiness(s: Store, userId: int, businessId: int, now: int): (r: Store)
    ensures SaleOf(s, userId, businessId).None? ==> r == s
    ensures SaleOf(s, userId, businessId).Some? ==> var price := SaleOf(s, userId, businessId).value;
      && r.businesses == s.businesses - {businessId}
      && r.transactions == s.transactions + [Transaction(userId, Some(businessId), "business_sale", price, "Продажа бизнеса", now)]
      && r.players.Keys == s.players.Keys
      && (userId in s.players ==> r.players[userId] == s.players[userId].(balance := s.players[userId].balance + price))
      && (forall id | id in s.players && id != userId :: r.players[id] == s.players[id])
      && r.(players := s.players, businesses := s.businesses, transactions := s.transactions) == s
    ensures Valid(s) ==> Valid(r)
  {
    match SaleOf(s, userId, businessId)
    case None => s
    case Some(price) =>
      var players := if userId in s.players then s.players[userId := s.players[userId].(balance := s.players[userId].balance + price)] else s.players;
      s.(players := players, businesses := s.businesses - {businessId},
         transactions := s.transactions + [Transaction(userId, Some(businessId), "business_sale", price, "Продажа бизнеса", now)])
  }

  // ---------------------------------------------------------------------------------------
  // Loans
  // ---------------------------------------------------------------------------------------

  /** `create_loan`: an active loan whose remaining balance is the whole amount. */
  function CreateLoan(s: Store, userId: int, amount: real, interestRate: real, termDays: int, issuedAt: int, dueDate: int): (r: Store)
    ensures r.(loans := s.loans, nextLoanId := s.nextLoanId) == s
    ensures r.nextLoanId == s.nextLoanId + 1
    ensures r.loans == s.loans[s.nextLoanId := Loan(userId, amount, interestRate, termDays, issuedAt, dueDate, amount, LoanActive)]
    ensures Valid(s) ==> Valid(r) && s.nextLoanId !in s.loans
    ensures amount >= 0.0 && LoansSound(s) ==> LoansSound(r)
  {
    s.(loans := s.loans[s.nextLoanId := Loan(userId, amount, interestRate, termDays, issuedAt, dueDate, amount, LoanActive)],
       nextLoanId := s.nextLoanId + 1)
  }

  /** Whether `repay_loan` touches the loan: it exists, belongs to the caller and is active. */
  predicate Repayable(s: Store, userId: int, loanId: int)
  {
    loanId in s.loans && s.loans[loanId].userId == userId && s.loans[loanId].status == LoanActive
  }

  /** `repay_loan`: lowers the remaining balance, never below 0, and closes the loan exactly
      when nothing remains; any other loan, and this one when not repayable, is untouched. */
  function RepayLoan(s: Store, userId: int, loanId: int, amount: real): (r: Store)
    ensures r.(loans := s.loans) == s
    ensures r.loans.Keys == s.loans.Keys
    ensures forall id | id in s.loans && id != loanId :: r.loans[id] == s.loans[id]
    ensures !Repayable(s, userId, loanId) ==> r == s
    ensures Repayable(s, userId, loanId) ==> var l, m := s.loans[loanId], r.loans[loanId];
      && m.remaining == Max(l.remaining - amount, 0.0)
      && (m.status == LoanClosed <==> m.remaining <= 0.0)
      && m.(remaining := l.remaining, status := l.status) == l
    ensures amount >= 0.0 && LoansSound(s) ==> LoansSound(r)
  {
    if Repayable(s, userId, loanId) then
      var l := s.loans[loanId];
      var remaining := Max(l.remaining - amount, 0.0);
      s.(loans := s.loans[loanId := l.(remaining := remaining, status := if remaining <= 0.0 then LoanClosed else LoanActive)])
    else s
  }

  /** Every loan owes between nothing and its principal, and a closed loan owes nothing. */
  predicate LoansSound(s: Store)
  {
    forall id | id in s.loans ::
      0.0 <= s.loans[id].remaining <= s.loans[id].amount && (s.loans[id].status == LoanClosed ==> s.loans[id].remaining == 0.0)
  }

  /** A closed loan stays closed and unchanged whatever is paid on it. */
  lemma ClosedLoanUntouched(s: Store, userId: int, loanId: int, amount: real)
    requires loanId in s.loans && s.loans[loanId].status == LoanClosed
    ensures RepayLoan(s, userId, loanId, amount) == s
  {
  }

  /** Paying the remaining balance in full closes the loan. */
  lemma FullRepaymentCloses(s: Store, userId: int, loanId: int)
    requires Repayable(s, userId, loanId)
    ensures var r := RepayLoan(s, userId, loanId, s.loans[loanId].remaining);
      r.loans[loanId].status == LoanClosed && r.loans[loanId].remaining == 0.0
  {
  }

  // ---------------------------------------------------------------------------------------
  // Investments
  // ---------------------------------------------------------------------------------------

  /** The price volatility `create_investment` assigns to a strategy. */
  function StrategyVolatility(strategy: string): (r: real)
    ensures r > 0.0
  {
    if strategy == "conservative" then 0.02
    else if strategy == "balanced" then 0.05
    else if strategy == "aggressive" then 0.10
    else 0.05
  }

  /** `create_investment`: an active row whose current value starts at the amount. */
  function CreateInvestment(s: Store, userId: int, businessId: Option<int>, strategy: string, amount: real,
                            expectedReturn: real, maturesAt: int, now: int): (r: Store)
    ensures r.(investments := s.investments, nextInvestmentId := s.nextInvestmentId) == s
    ensures r.nextInvestmentId == s.nextInvestmentId + 1
    ensures r.investments == s.investments[s.nextInvestmentId := Investment(userId, businessId, strategy, amount,
      expectedReturn, now, maturesAt, Active, amount, StrategyVolatility(strategy), now)]
    ensures Valid(s) ==> Valid(r) && s.nextInvestmentId !in s.investments
    ensures amount >= 0.0 && ValuesSound(s) ==> ValuesSound(r)
  {
    s.(investments := s.investments[s.nextInvestmentId := Investment(userId, businessId, strategy, amount,
         expectedReturn, now, maturesAt, Active, amount, StrategyVolatility(strategy), now)],
       nextInvestmentId := s.nextInvestmentId + 1)
  }

  /** No investment is worth less than nothing. */
  predicate ValuesSound(s: Store)
  {
    forall id | id in s.investments :: s.investments[id].currentValue >= 0.0
  }

  function MatureIfDue(inv: Investment, now: int): Investment
  {
    if inv.status == Active && inv.maturesAt <= now then inv.(status := Matured) else inv
  }

  /** `mark_matured_investments`: every active row that is due becomes matured. */
  function MarkMaturedInvestments(s: Store, now: int): (r: Store)
    ensures r.(investments := s.investments) == s
    ensures r.investments.Keys == s.investments.Keys
    ensures forall id | id in s.investments :: r.investments[id] == MatureIfDue(s.investments[id], now)
  {
    s.(investments := map id | id in s.investments :: MatureIfDue(s.investments[id], now))
  }

  /** Only the status changes, only from active to matured, and exactly for the rows that are
      due; ids, volatilities and values are untouched. */
  lemma MarkMaturedOnlyMatures(s: Store, now: int, id: int)
    requires id in s.investments
    ensures var before, after := s.investments[id], MarkMaturedInvestments(s, now).investments[id];
      && after == before.(status := after.status)
      && (after.status != before.status <==> before.status == Active && before.maturesAt <= now)
      && (after.status != before.status ==> after.status == Matured)
  {
  }

  /** The pass keeps the store valid and every value non-negative. */
  lemma MarkMaturedKeepsInvariants(s: Store, now: int)
    ensures Valid(s) ==> Valid(MarkMaturedInvestments(s, now))
    ensures ValuesSound(s) ==> ValuesSound(MarkMaturedInvestments(s, now))
  {
    var r := MarkMaturedInvestments(s, now);
    assert forall id | id in r.investments ::
      (r.investments[id].currentValue == s.investments[id].currentValue && r.investments[id].volatility == s.investments[id].volatility);
  }

  /** Marking is idempotent, and a later pass subsumes an earlier one: no status ever reverts. */
  lemma MarkMaturedIdempotent(s: Store, t1: int, t2: int)
    requires t1 <= t2
    ensures MarkMaturedInvestments(MarkMaturedInvestments(s, t1), t1) == MarkMaturedInvestments(s, t1)
    ensures MarkMaturedInvestments(MarkMaturedInvestments(s, t1), t2) == MarkMaturedInvestments(s, t2)
  {
  }

  /** The volatility a price update uses: `float(volatility or 0.05)`, so a stored 0 reads as 0.05. */
  function EffectiveVolatility(inv: Investment): real
  {
    if inv.volatility == 0.0 then 0.05 else inv.volatility
  }

  /** One uniform draw in [-volatility, volatility] per active row. */
  predicate DrawsCover(s: Store, ratios: map<int, real>)
  {
    forall id | id in s.investments && s.investments[id].status == Active ::
      id in ratios && -EffectiveVolatility(s.investments[id]) <= ratios[id] <= EffectiveVolatility(s.investments[id])
  }

  function Repriced(inv: Investment, ratio: real, now: int): Investment
  {
    inv.(currentValue := Max(0.0, inv.currentValue * (1.0 + ratio)), lastPriceUpdate := now)
  }

  /** `update_investment_prices` with the draws passed in. */
  function UpdateInvestmentPrices(s: Store, ratios: map<int, real>, now: int): (r: Store)
    requires DrawsCover(s, ratios)
    ensures r.(investments := s.investments) == s
    ensures r.investments.Keys == s.investments.Keys
    ensures forall id | id in s.investments ::
      (r.investments[id] == if s.investments[id].status == Active then Repriced(s.investments[id], ratios[id], now) else s.investments[id])
  {
    s.(investments := map id | id in s.investments ::
      if s.investments[id].status == Active then Repriced(s.investments[id], ratios[id], now) else s.investments[id])
  }

  /** Rows that are not active keep everything; active rows get a non-negative value and a new
      timestamp and keep everything else. */
  lemma RepriceTouchesOnlyActive(s: Store, ratios: map<int, real>, now: int, id: int)
    requires DrawsCover(s, ratios) && id in s.investments
    ensures var before, after := s.investments[id], UpdateInvestmentPrices(s, ratios, now).investments[id];
      && (before.status != Active ==> after == before)
      && (before.status == Active ==> after == before.(currentValue := after.currentValue, lastPriceUpdate := now) && after.currentValue >= 0.0)
  {
  }

  /** The pass keeps the store valid and every value non-negative. */
  lemma RepriceKeepsInvariants(s: Store, ratios: map<int, real>, now: int)
    requires DrawsCover(s, ratios)
    ensures Valid(s) ==> Valid(UpdateInvestmentPrices(s, ratios, now))
    ensures ValuesSound(s) ==> ValuesSound(UpdateInvestmentPrices(s, ratios, now))
  {
    var r := UpdateInvestmentPrices(s, ratios, now);
    assert forall id | id in r.investments :: r.investments[id].volatility == s.investments[id].volatility;
    forall id | id in r.investments
      ensures r.investments[id].currentValue >= 0.0 || r.investments[id] == s.investments[id]
    {
      RepriceTouchesOnlyActive(s, ratios, now, id);
    }
  }

  /** A non-negative value moves by at most its volatility in one pass. */
  lemma RepriceWithinVolatility(s: Store, ratios: map<int, real>, now: int, id: int)
    requires DrawsCover(s, ratios)
    requires id in s.investments && s.investments[id].status == Active && s.investments[id].currentValue >= 0.0
    ensures var v, w := s.investments[id].currentValue, UpdateInvestmentPrices(s, ratios, now).investments[id].currentValue;
      var vol := EffectiveVolatility(s.investments[id]);
      v * (1.0 - vol) <= w <= v * (1.0 + vol)
  {
    var inv := s.investments[id];
    var v, r, vol := inv.currentValue, ratios[id], EffectiveVolatility(inv);
    assert v * (1.0 + r) - v * (1.0 - vol) == v * (r + vol);
    assert v * (r + vol) >= 0.0;
    assert v * (1.0 + vol) - v * (1.0 + r) == v * (vol - r);
    assert v * (vol - r) >= 0.0;
    assert v * (1.0 + vol) >= 0.0;
  }

  /** What `claim_investment` pays: the current value, floored at 0, of the caller's matured row. */
  function ClaimPayout(s: Store, userId: int, investmentId: int): (r: Option<real>)
    ensures r.Some? <==> investmentId in s.investments && s.investments[investmentId].userId == userId
                         && s.investments[investmentId].status == Matured
    ensures r.Some? ==> r.value == Max(0.0, s.investments[investmentId].currentValue) >= 0.0
  {
    if investmentId in s.investments && s.investments[investmentId].userId == userId && s.investments[investmentId].status == Matured
    then Some(Max(0.0, s.investments[investmentId].currentValue))
    else None
  }

  /** `claim_investment`: a paid row becomes claimed. */
  function ClaimInvestment(s: Store, userId: int, investmentId: int): (r: Store)
    ensures ClaimPayout(s, userId, investmentId).None? ==> r == s
    ensures ClaimPayout(s, userId, investmentId).Some? ==>
      r == s.(investments := s.investments[investmentId := s.investments[investmentId].(status := Claimed)])
    ensures Valid(s) ==> Valid(r)
  {
    if ClaimPayout(s, userId, investmentId).Some?
    then s.(investments := s.investments[investmentId := s.investments[investmentId].(status := Claimed)])
    else s
  }

  /** A claimed investment pays once: claiming it again yields nothing. */
  lemma ClaimPaysOnce(s: Store, userId: int, investmentId: int, otherUser: int)
    requires ClaimPayout(s, userId, investmentId).Some?
    ensures ClaimPayout(ClaimInvestment(s, userId, investmentId), otherUser, investmentId).None?
    ensures WithdrawPayout(ClaimInvestment(s, userId, investmentId), otherUser, investmentId).None?
  {
  }

  /** What `withdraw_investment` pays, with the status before: 95% of the value for an active
      row, all of it for a matured one; `None` for any other row or another owner. */
  function WithdrawPayout(s: Store, userId: int, investmentId: int): (r: Option<(real, InvestmentStatus)>)
    ensures r.Some? <==> investmentId in s.investments && s.investments[investmentId].userId == userId
                         && s.investments[investmentId].status in {Active, Matured}
    ensures r.Some? ==> r.value.1 == s.investments[investmentId].status && r.value.0 >= 0.0
    ensures r.Some? ==> var v := Max(0.0, s.investments[investmentId].currentValue);
      r.value.0 == (if r.value.1 == Active then v * 0.95 else v)
  {
    if investmentId in s.investments && s.investments[investmentId].userId == userId
       && s.investments[investmentId].status in {Active, Matured}
    then
      var inv := s.investments[investmentId];
      var currentValue := Max(0.0, inv.currentValue);
      var penalty := if inv.status == Matured then 0.0 else 0.05;
      Some((Max(0.0, currentValue * (1.0 - penalty)), inv.status))
    else None
  }

  /** `withdraw_investment`: a paid row becomes withdrawn. */
  function WithdrawInvestment(s: Store, userId: int, investmentId: int): (r: Store)
    ensures WithdrawPayout(s, userId, investmentId).None? ==> r == s
    ensures WithdrawPayout(s, userId, investmentId).Some? ==>
      r == s.(investments := s.investments[investmentId := s.investments[investmentId].(status := Withdrawn)])
    ensures Valid(s) ==> Valid(r)
  {
    if WithdrawPayout(s, userId, investmentId).Some?
    then s.(investments := s.investments[investmentId := s.investments[investmentId].(status := Withdrawn)])
    else s
  }

  /** Withdrawing 20000 right after investing it pays 19000 and reports the row as active. */
  lemma EarlyWithdrawalScenario(s: Store, userId: int, strategy: string, maturesAt: int, now: int)
    ensures var t := CreateInvestment(s, userId, None, strategy, 20000.0, 20000.0 * 0.12, maturesAt, now);
      WithdrawPayout(t, userId, s.nextInvestmentId) == Some((19000.0, Active))
  {
  }

  // ---------------------------------------------------------------------------------------
  // Productions
  // ---------------------------------------------------------------------------------------

  /** `create_production`: an in-progress job under the next id. */
  function CreateProduction(s: Store, businessId: int, prodType: string, name: string, version: int,
                            readyAt: int, quantity: real, now: int): (r: Store)
    ensures r.(productions := s.productions, nextProductionId := s.nextProductionId) == s
    ensures r.nextProductionId == s.nextProductionId + 1
    ensures r.productions == s.productions[s.nextProductionId := Production(businessId, prodType, name, version, InProgress, now, readyAt, quantity)]
    ensures Valid(s) ==> Valid(r) && s.nextProductionId !in s.productions
  {
    s.(productions := s.productions[s.nextProductionId := Production(businessId, prodType, name, version, InProgress, now, readyAt, quantity)],
       nextProductionId := s.nextProductionId + 1)
  }

  datatype CollectedJob = CollectedJob(businessId: int, prodType: string, name: string, version: int, quantity: real, userId: int)

  /** What `collect_production` returns: the job, when it exists, its business exists and belongs
      to the caller, it is ready and it has not been collected yet. */
  function CollectInfo(s: Store, prodId: int, userId: int, now: int): (r: Option<CollectedJob>)
    ensures r.Some? <==> && prodId in s.productions && s.productions[prodId].businessId in s.businesses
                         && s.businesses[s.productions[prodId].businessId].ownerId == userId
                         && s.productions[prodId].readyAt <= now && s.productions[prodId].status != Collected
    ensures r.Some? ==> var p := s.productions[prodId];
      r.value == CollectedJob(p.businessId, p.prodType, p.name, p.version, p.quantity, userId)
  {
    if prodId !in s.productions then None
    else
      var p := s.productions[prodId];
      if p.businessId !in s.businesses then None
      else if s.businesses[p.businessId].ownerId != userId then None
      else if p.readyAt <= now && p.status != Collected then Some(CollectedJob(p.businessId, p.prodType, p.name, p.version, p.quantity, userId))
      else None
  }

  /** `collect_production`: a returned job is marked collected. */
  function CollectProduction(s: Store, prodId: int, userId: int, now: int): (r: Store)
    ensures CollectInfo(s, prodId, userId, now).None? ==> r == s
    ensures CollectInfo(s, prodId, userId, now).Some? ==>
      r == s.(productions := s.productions[prodId := s.productions[prodId].(status := Collected)])
    ensures Valid(s) ==> Valid(r)
  {
    if CollectInfo(s, prodId, userId, now).Some?
    then s.(productions := s.productions[prodId := s.productions[prodId].(status := Collected)])
    else s
  }

  /** A job pays out at most once: after a collect, no caller can collect it again, ever. */
  lemma CollectAtMostOnce(s: Store, prodId: int, userId: int, now: int, otherUser: int, later: int)
    requires CollectInfo(s, prodId, userId, now).Some?
    ensures CollectInfo(CollectProduction(s, prodId, userId, now), prodId, otherUser, later).None?
  {
  }

  /** Nothing is collected before the job is ready. */
  lemma NoCollectBeforeReady(s: Store, prodId: int, userId: int, now: int)
    requires prodId in s.productions && now < s.productions[prodId].readyAt
    ensures CollectInfo(s, prodId, userId, now).None?
    ensures CollectProduction(s, prodId, userId, now) == s
  {
  }

  // ---------------------------------------------------------------------------------------
  // PvP profiles, ratings and matches
  // ---------------------------------------------------------------------------------------

  /** The column defaults of a new `pvp_profiles` row. */
  const FreshProfile: PvpProfile := PvpProfile(1000.0, 0, 0, 0, None, None)

  /** `ensure_pvp_profile`: INSERT OR IGNORE. */
  function EnsurePvpProfile(s: Store, userId: int): (r: Store)
    ensures r.(pvpProfiles := s.pvpProfiles) == s
    ensures r.pvpProfiles.Keys == s.pvpProfiles.Keys + {userId}
    ensures forall id | id in s.pvpProfiles :: r.pvpProfiles[id] == s.pvpProfiles[id]
    ensures userId !in s.pvpProfiles ==> r.pvpProfiles[userId] == FreshProfile
  {
    if userId in s.pvpProfiles then s else s.(pvpProfiles := s.pvpProfiles[userId := FreshProfile])
  }

  /** A player's rating, 1000 when there is no profile yet. */
  function RatingOf(s: Store, userId: int): real
  {
    if userId in s.pvpProfiles then s.pvpProfiles[userId].rating else 1000.0
  }

  /** `tenPow` stands for `math.pow(10, exponent)`: positive, 1 at 0, and above 1 exactly for a
      positive exponent. */
  predicate IsPow10Of(tenPow: real, exponent: real)
  {
    tenPow > 0.0 && (exponent == 0.0 ==> tenPow == 1.0) && (exponent > 0.0 ==> tenPow > 1.0) && (exponent < 0.0 ==> tenPow < 1.0)
  }

  /** 10^-x is 1 / 10^x. */
  lemma Pow10OfNegation(tenPow: real, exponent: real)
    requires IsPow10Of(tenPow, exponent)
    ensures IsPow10Of(1.0 / tenPow, -exponent)
  {
    if exponent > 0.0 {
      assert 1.0 / tenPow < 1.0 by {
        assert tenPow * (1.0 / tenPow) == 1.0;
      }
    } else if exponent < 0.0 {
      assert 1.0 / tenPow > 1.0 by {
        assert tenPow * (1.0 / tenPow) == 1.0;
      }
    }
  }

  /** The Elo exponent of a match the winner wins: (loser's rating - winner's rating) / 400. */
  function EloExponent(s: Store, winnerId: int, loserId: int): real
  {
    (RatingOf(s, loserId) - RatingOf(s, winnerId)) / 400.0
  }

  /** What the winner gains: K times the probability the winner was not expected to win. */
  function WinnerGain(k: real, tenPow: real): (r: real)
    requires tenPow > 0.0
    ensures k > 0.0 ==> 0.0 < r < k
  {
    var expectedWinner := 1.0 / (1.0 + tenPow);
    k * (1.0 - expectedWinner)
  }

  /** The profile of the winner after a match. */
  function AfterWin(p: PvpProfile, rating: real, now: int): PvpProfile
  {
    p.(rating := rating, wins := p.wins + 1, streak := if p.streak >= 0 then p.streak + 1 else 1, lastFightAt := Some(now))
  }

  /** The profile of the loser after a match. */
  function AfterLoss(p: PvpProfile, rating: real, now: int): PvpProfile
  {
    p.(rating := rating, losses := p.losses + 1, streak := if p.streak <= 0 then p.streak - 1 else -1, lastFightAt := Some(now))
  }

  /** The two new ratings `update_pvp_ratings_after_match` computes. */
  function NewRatings(s: Store, winnerId: int, loserId: int, k: real, tenPow: real): (r: (real, real))
    requires IsPow10Of(tenPow, EloExponent(s, winnerId, loserId))
    ensures r.0 - RatingOf(s, winnerId) == RatingOf(s, loserId) - r.1 == WinnerGain(k, tenPow)
  {
    var w := RatingOf(s, winnerId);
    var l := RatingOf(s, loserId);
    var expectedWinner := 1.0 / (1.0 + tenPow);
    var expectedLoser := 1.0 - expectedWinner;
    (w + k * (1.0 - expectedWinner), l + k * (0.0 - expectedLoser))
  }

  /** `update_pvp_ratings_after_match`: both profiles are created if missing, then the winner's
      row and the loser's row are updated, in that order. */
  function UpdatePvpRatings(s: Store, winnerId: int, loserId: int, k: real, tenPow: real, now: int): (r: Store)
    requires IsPow10Of(tenPow, EloExponent(s, winnerId, loserId))
    ensures r.(pvpProfiles := s.pvpProfiles) == s
    ensures r.pvpProfiles.Keys == s.pvpProfiles.Keys + {winnerId, loserId}
    ensures forall id | id in s.pvpProfiles && id != winnerId && id != loserId :: r.pvpProfiles[id] == s.pvpProfiles[id]
  {
    var t := EnsurePvpProfile(EnsurePvpProfile(s, winnerId), loserId);
    var ratings := NewRatings(s, winnerId, loserId, k, tenPow);
    var afterWinner := t.pvpProfiles[winnerId := AfterWin(t.pvpProfiles[winnerId], ratings.0, now)];
    t.(pvpProfiles := afterWinner[loserId := AfterLoss(afterWinner[loserId], ratings.1, now)])
  }

  /** The exchange is zero-sum: the loser loses exactly what the winner gains, wins, losses and
      streaks move as a win and a loss, and equal ratings with K = 32 move by 16 each way. */
  lemma EloExchangeZeroSum(s: Store, winnerId: int, loserId: int, k: real, tenPow: real, now: int)
    requires winnerId != loserId
    requires IsPow10Of(tenPow, EloExponent(s, winnerId, loserId))
    ensures var r := UpdatePvpRatings(s, winnerId, loserId, k, tenPow, now);
      var w, l := r.pvpProfiles[winnerId], r.pvpProfiles[loserId];
      && w.rating + l.rating == RatingOf(s, winnerId) + RatingOf(s, loserId)
      && (k > 0.0 ==> w.rating > RatingOf(s, winnerId) && l.rating < RatingOf(s, loserId))
      && (RatingOf(s, winnerId) == RatingOf(s, loserId) && k == 32.0 ==>
            w.rating == RatingOf(s, winnerId) + 16.0 && l.rating == RatingOf(s, loserId) - 16.0)
  {
    var ratings := NewRatings(s, winnerId, loserId, k, tenPow);
    var r := UpdatePvpRatings(s, winnerId, loserId, k, tenPow, now);
    assert r.pvpProfiles[winnerId].rating == ratings.0;
    assert r.pvpProfiles[loserId].rating == ratings.1;
    if RatingOf(s, winnerId) == RatingOf(s, loserId) {
      assert tenPow == 1.0;
    }
  }

  /** Wins, losses and streaks after a match between two different players. */
  lemma EloCounters(s: Store, winnerId: int, loserId: int, k: real, tenPow: real, now: int)
    requires winnerId != loserId
    requires IsPow10Of(tenPow, EloExponent(s, winnerId, loserId))
    ensures var t := EnsurePvpProfile(EnsurePvpProfile(s, winnerId), loserId);
      var r := UpdatePvpRatings(s, winnerId, loserId, k, tenPow, now);
      var w0, l0, w, l := t.pvpProfiles[winnerId], t.pvpProfiles[loserId], r.pvpProfiles[winnerId], r.pvpProfiles[loserId];
      && w.wins == w0.wins + 1 && w.losses == w0.losses && w.streak == (if w0.streak >= 0 then w0.streak + 1 else 1)
      && l.losses == l0.losses + 1 && l.wins == l0.wins && l.streak == (if l0.streak <= 0 then l0.streak - 1 else -1)
      && w.streak >= 1 && l.streak <= -1
  {
  }

  /** `record_pvp_match`. */
  function RecordPvpMatch(s: Store, m: PvpMatch): (r: Store)
    ensures r.(pvpMatches := s.pvpMatches) == s
    ensures r.pvpMatches == s.pvpMatches + [m]
  {
    s.(pvpMatches := s.pvpMatches + [m])
  }

  /** `add_achievement`: appends a row, earned now. */
  function AddAchievement(s: Store, userId: int, kind: string, title: string, description: string, now: int): (r: Store)
    ensures r.(achievements := s.achievements) == s
    ensures r.achievements == s.achievements + [AchievementRow(userId, kind, title, description, now)]
  {
    s.(achievements := s.achievements + [AchievementRow(userId, kind, title, description, now)])
  }

  // ---------------------------------------------------------------------------------------
  // Cooldowns
  // ---------------------------------------------------------------------------------------

  /** `set_pvp_cooldown`: an UPDATE, so a player without a profile gets no cooldown. */
  function SetPvpCooldown(s: Store, userId: int, seconds: int, now: int): (r: Store)
    ensures r.(pvpProfiles := s.pvpProfiles) == s
    ensures r.pvpProfiles.Keys == s.pvpProfiles.Keys
    ensures forall id | id in s.pvpProfiles && id != userId :: r.pvpProfiles[id] == s.pvpProfiles[id]
    ensures userId in s.pvpProfiles ==> r.pvpProfiles[userId] == s.pvpProfiles[userId].(cooldownUntil := Some(now + seconds))
  {
    if userId in s.pvpProfiles then s.(pvpProfiles := s.pvpProfiles[userId := s.pvpProfiles[userId].(cooldownUntil := Some(now + seconds))])
    else s
  }

  /** `pvp_cooldown_remaining`: seconds left, never negative, 0 without a profile or a cooldown. */
  function PvpCooldownRemaining(s: Store, userId: int, now: int): (r: int)
    ensures r >= 0
    ensures r > 0 <==> userId in s.pvpProfiles && s.pvpProfiles[userId].cooldownUntil.Some? && s.pvpProfiles[userId].cooldownUntil.value > now
    ensures r > 0 ==> r == s.pvpProfiles[userId].cooldownUntil.value - now
  {
    if userId in s.pvpProfiles && s.pvpProfiles[userId].cooldownUntil.Some? then
      var remaining := s.pvpProfiles[userId].cooldownUntil.value - now;
      if remaining > 0 then remaining else 0
    else 0
  }

  /** `set_cooldown`: INSERT OR REPLACE of the expiry `minutes` from now. */
  function SetCooldown(s: Store, userId: int, actionType: string, minutes: int, now: int): (r: Store)
    ensures r.(cooldowns := s.cooldowns) == s
    ensures r.cooldowns == s.cooldowns[(userId, actionType) := now + minutes * 60]
  {
    s.(cooldowns := s.cooldowns[(userId, actionType) := now + minutes * 60])
  }

  /** `get_cooldown_remaining`: seconds left, never negative, 0 without a row. */
  function CooldownRemaining(s: Store, userId: int, actionType: string, now: int): (r: int)
    ensures r >= 0
    ensures r > 0 <==> (userId, actionType) in s.cooldowns && s.cooldowns[(userId, actionType)] > now
    ensures r > 0 ==> r == s.cooldowns[(userId, actionType)] - now
  {
    if (userId, actionType) in s.cooldowns then
      var remaining := s.cooldowns[(userId, actionType)] - now;
      if remaining > 0 then remaining else 0
    else 0
  }

  /** A cooldown just set has its full length left, runs out after it, never grows with time,
      and leaves every other player's or action's cooldown as it was. */
  lemma CooldownLifecycle(s: Store, userId: int, actionType: string, minutes: int, now: int, t1: int, t2: int,
                          otherUser: int, otherAction: string)
    requires minutes >= 0 && t1 <= t2
    requires (otherUser, otherAction) != (userId, actionType)
    ensures var r := SetCooldown(s, userId, actionType, minutes, now);
      && CooldownRemaining(r, userId, actionType, now) == minutes * 60
      && CooldownRemaining(r, userId, actionType, now + minutes * 60) == 0
      && CooldownRemaining(r, otherUser, otherAction, t1) == CooldownRemaining(s, otherUser, otherAction, t1)
    ensures CooldownRemaining(s, userId, actionType, t2) <= CooldownRemaining(s, userId, actionType, t1)
  {
  }

  /** The PvP cooldown behaves the same once the profile exists; without one it is never set. */
  lemma PvpCooldownLifecycle(s: Store, userId: int, seconds: int, now: int)
    requires seconds >= 0
    ensures userId in s.pvpProfiles ==> PvpCooldownRemaining(SetPvpCooldown(s, userId, seconds, now), userId, now) == seconds
    ensures userId !in s.pvpProfiles ==> PvpCooldownRemaining(SetPvpCooldown(s, userId, seconds, now), userId, now) == 0
    ensures PvpCooldownRemaining(SetPvpCooldown(s, userId, seconds, now), userId, now + seconds) == 0
  {
  }
}
