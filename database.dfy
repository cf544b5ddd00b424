/** `GameDatabase`: the SQLite store as an object whose fields are its tables. Every method
    updates the fields in place and is proved to leave exactly the store that the matching
    function of `Tables` describes. */
module Database {
  import opened Wrappers
  import opened Config
  import opened Records
  import Tables

  /** The loop of `update_investment_prices` over the active rows, in row-id order: each is moved
      by its own draw and stamped with `now`; the other rows are left as they are. */
  method RepriceActiveRows(investments: map<int, Investment>, ratios: map<int, real>, now: int, nextId: int)
    returns (rows: map<int, Investment>)
    requires forall id | id in investments :: 1 <= id < nextId
    requires forall id | id in investments && investments[id].status == Active :: id in ratios
    ensures rows.Keys == investments.Keys
    ensures forall id | id in investments ::
      (rows[id] == if investments[id].status == Active then Tables.Repriced(investments[id], ratios[id], now) else investments[id])
  {
    rows := investments;
    var id := 1;
    while id < nextId
      invariant rows.Keys == investments.Keys
      invariant forall j | j in investments && j >= id :: rows[j] == investments[j]
      invariant forall j | j in investments && j < id ::
        (rows[j] == if investments[j].status == Active then Tables.Repriced(investments[j], ratios[j], now) else investments[j])
    {
      if id in rows && rows[id].status == Active {
        var currentValue := rows[id].currentValue;
        var changeRatio := ratios[id];
        var newValue := Max(0.0, currentValue * (1.0 + changeRatio));
        rows := rows[id := rows[id].(currentValue := newValue, lastPriceUpdate := now)];
      }
      id := id + 1;
    }
  }

  class GameDatabase {
    var players: map<int, Player>
    var businesses: map<int, Business>
    var nextBusinessId: int
    var transactions: seq<Transaction>
    var achievements: seq<AchievementRow>
    var loans: map<int, Loan>
    var nextLoanId: int
    var investments: map<int, Investment>
    var nextInvestmentId: int
    var productions: map<int, Production>
    var nextProductionId: int
    var pvpProfiles: map<int, PvpProfile>
    var pvpMatches: seq<PvpMatch>
    var cooldowns: map<(int, string), int>

    /** The current contents of every table. */
    function Snapshot(): Tables.Store
      reads this
    {
      Tables.Store(players, businesses, nextBusinessId, transactions, achievements, loans, nextLoanId,
        investments, nextInvestmentId, productions, nextProductionId, pvpProfiles, pvpMatches, cooldowns)
    }

    ghost predicate Valid()
      reads this
    {
      Tables.Valid(Snapshot())
    }

    /** `__init__` on a new database file: every table empty. */
    constructor ()
      ensures Snapshot() == Tables.Empty() && Valid()
    {
      players, businesses, nextBusinessId := map[], map[], 1;
      transactions, achievements := [], [];
      loans, nextLoanId := map[], 1;
      investments, nextInvestmentId := map[], 1;
      productions, nextProductionId := map[], 1;
      pvpProfiles, pvpMatches, cooldowns := map[], [], map[];
    }

    // -------------------------------------------------------------------------------------
    // Reads
    // -------------------------------------------------------------------------------------

    /** `get_player`. */
    function GetPlayer(userId: int): (r: Option<Player>)
      reads this
      ensures r.Some? <==> userId in Snapshot().players
      ensures r.Some? ==> r.value == Snapshot().players[userId]
    {
      if userId in players then Some(players[userId]) else None
    }

    /** `get_player_businesses`, in id order. */
    function GetPlayerBusinesses(userId: int): (r: seq<Business>)
      reads this
      ensures forall b | b in r :: b.ownerId == userId && b.id in businesses && businesses[b.id] == b
      ensures Valid() ==> forall id | id in businesses && businesses[id].ownerId == userId :: businesses[id] in r
    {
      Tables.BusinessesOfListsAllOwned(Snapshot(), userId);
      Tables.BusinessesOf(Snapshot(), userId)
    }

    /** `get_loan_by_id`: the loan when it belongs to the caller, whatever its status. */
    function GetLoanById(userId: int, loanId: int): (r: Option<Loan>)
      reads this
      ensures r.Some? <==> loanId in loans && loans[loanId].userId == userId
      ensures r.Some? ==> r.value == loans[loanId]
      ensures (r.Some? && r.value.status == LoanActive) <==> Tables.Repayable(Snapshot(), userId, loanId)
    {
      if loanId in loans && loans[loanId].userId == userId then Some(loans[loanId]) else None
    }

    /** `pvp_cooldown_remaining`. */
    function PvpCooldownRemaining(userId: int, now: int): (r: int)
      reads this
      ensures r >= 0
      ensures r > 0 <==> userId in pvpProfiles && pvpProfiles[userId].cooldownUntil.Some? && pvpProfiles[userId].cooldownUntil.value > now
      ensures r > 0 ==> r == pvpProfiles[userId].cooldownUntil.value - now
    {
      Tables.PvpCooldownRemaining(Snapshot(), userId, now)
    }

    /** `get_cooldown_remaining`. */
    function GetCooldownRemaining(userId: int, actionType: string, now: int): (r: int)
      reads this
      ensures r >= 0
      ensures r > 0 <==> (userId, actionType) in cooldowns && cooldowns[(userId, actionType)] > now
      ensures r > 0 ==> r == cooldowns[(userId, actionType)] - now
    {
      Tables.CooldownRemaining(Snapshot(), userId, actionType, now)
    }

    // -------------------------------------------------------------------------------------
    // Players and the balance ledger
    // -------------------------------------------------------------------------------------

    method AddPlayer(userId: int, username: string, firstName: string, now: int) returns (ok: bool)
      modifies this
      ensures Snapshot() == Tables.AddPlayer(old(Snapshot()), userId, username, firstName, now)
      ensures ok
    {
      if userId !in players {
        players := players[userId := Tables.FreshPlayer(username, firstName, now)];
      }
      ok := true;
    }

    method UpdatePlayerBalance(userId: int, amount: real, kind: string, description: string, now: int) returns (ok: bool)
      modifies this
      ensures Snapshot() == Tables.UpdatePlayerBalance(old(Snapshot()), userId, amount, kind, description, now)
      ensures ok
    {
      if userId in players {
        var p := players[userId];
        players := players[userId := p.(
          balance := p.balance + amount,
          totalIncome := p.totalIncome + (if amount > 0.0 then amount else 0.0),
          totalExpenses := p.totalExpenses + (if amount < 0.0 then -amount else 0.0),
          lastActive := now)];
      }
      transactions := transactions + [Transaction(userId, None, kind, amount, description, now)];
      ok := true;
    }

    method UpdatePlayerPopularity(userId: int, delta: real, now: int) returns (ok: bool)
      modifies this
      ensures Snapshot() == Tables.UpdatePlayerPopularity(old(Snapshot()), userId, delta, now)
      ensures ok
    {
      if userId in players {
        var p := players[userId];
        players := players[userId := p.(popularity := Max(p.popularity + delta, 0.0), lastActive := now)];
      }
      ok := true;
    }

    method AddExperience(userId: int, gained: int, now: int) returns (experience: Option<int>)
      modifies this
      ensures (Snapshot(), experience) == Tables.AddExperience(old(Snapshot()), userId, gained, now)
    {
      if userId !in players {
        return None;
      }
      var p := players[userId];
      players := players[userId := p.(experience := p.experience + gained, lastActive := now)];
      experience := Some(p.experience + gained);
    }

    method ApplyLevelUp(userId: int, newLevel: int, remainingExperience: int, balanceBonus: real,
                        popularityBonus: real, now: int) returns (ok: bool)
      modifies this
      ensures Snapshot() == Tables.ApplyLevelUp(old(Snapshot()), userId, newLevel, remainingExperience, balanceBonus, popularityBonus, now)
      ensures ok
    {
      if userId in players {
        var p := players[userId];
        players := players[userId := p.(level := newLevel, experience := remainingExperience,
          balance := p.balance + balanceBonus, popularity := p.popularity + popularityBonus, lastActive := now)];
      }
      ok := true;
    }

    method AddAchievement(userId: int, kind: string, title: string, description: string, now: int) returns (ok: bool)
      modifies this
      ensures Snapshot() == Tables.AddAchievement(old(Snapshot()), userId, kind, title, description, now)
      ensures ok
    {
      achievements := achievements + [AchievementRow(userId, kind, title, description, now)];
      ok := true;
    }

    // -------------------------------------------------------------------------------------
    // Businesses
    // -------------------------------------------------------------------------------------

    method AddBusiness(userId: int, businessType: string, name: string, income: real, expenses: real) returns (businessId: int)
      modifies this
      ensures Snapshot() == Tables.AddBusiness(old(Snapshot()), userId, businessType, name, income, expenses)
      ensures businessId == old(nextBusinessId)
    {
      businessId := nextBusinessId;
      businesses := businesses[businessId := Business(businessId, userId, businessType, name, income, expenses, 1, [], None)];
      nextBusinessId := nextBusinessId + 1;
    }

    method UpdateBusiness(businessId: int, income: Option<real>, expenses: Option<real>, level: Option<int>,
                          improvements: Option<seq<string>>) returns (ok: bool)
      modifies this
      ensures !Tables.HasUpdates(income, expenses, level, improvements) ==> Snapshot() == old(Snapshot())
      ensures Tables.HasUpdates(income, expenses, level, improvements) ==>
        Snapshot() == Tables.UpdateBusiness(old(Snapshot()), businessId, income, expenses, level, improvements)
      ensures ok == Tables.HasUpdates(income, expenses, level, improvements)
    {
      if !Tables.HasUpdates(income, expenses, level, improvements) {
        return false;
      }
      if businessId in businesses {
        var b := businesses[businessId];
        businesses := businesses[businessId := b.(income := income.GetOr(b.income), expenses := expenses.GetOr(b.expenses),
          level := level.GetOr(b.level), improvements := improvements.GetOr(b.improvements))];
      }
      ok := true;
    }

    /** `sell_business`: the sale price, or `None` for a missing or foreign business. */
    method SellBusiness(userId: int, businessId: int, now: int) returns (salePrice: Option<real>)
      modifies this
      ensures salePrice == Tables.SaleOf(old(Snapshot()), userId, businessId)
      ensures Snapshot() == Tables.SellBusiness(old(Snapshot()), userId, businessId, now)
    {
      if !(businessId in businesses && businesses[businessId].ownerId == userId) {
        return None;
      }
      var b := businesses[businessId];
      var baseValue := b.income * 10.0;
      var improvementsValue := 0.0;
      var i := 0;
      while i < |b.improvements|
        invariant 0 <= i <= |b.improvements|
        invariant improvementsValue == Tables.ImprovementsSaleValue(b.improvements[..i])
      {
        var improvement := b.improvements[i];
        if ImprovementOf(improvement).Some? {
          improvementsValue := improvementsValue + ImprovementOf(improvement).value.cost * 0.7;
        }
        assert b.improvements[..i + 1][..i] == b.improvements[..i];
        i := i + 1;
      }
      assert b.improvements[..i] == b.improvements;
      var levelBonus := (b.level - 1) as real * 1000.0;
      var totalValue := baseValue + improvementsValue + levelBonus;
      if userId in players {
        players := players[userId := players[userId].(balance := players[userId].balance + totalValue)];
      }
      businesses := businesses - {businessId};
      transactions := transactions + [Transaction(userId, Some(businessId), "business_sale", totalValue, "Продажа бизнеса", now)];
      salePrice := Some(totalValue);
    }

    // -------------------------------------------------------------------------------------
    // Loans
    // -------------------------------------------------------------------------------------

    method CreateLoan(userId: int, amount: real, interestRate: real, termDays: int, issuedAt: int, dueDate: int) returns (loanId: int)
      modifies this
      ensures Snapshot() == Tables.CreateLoan(old(Snapshot()), userId, amount, interestRate, termDays, issuedAt, dueDate)
      ensures loanId == old(nextLoanId)
    {
      loanId := nextLoanId;
      loans := loans[loanId := Loan(userId, amount, interestRate, termDays, issuedAt, dueDate, amount, LoanActive)];
      nextLoanId := nextLoanId + 1;
    }

    method RepayLoan(userId: int, loanId: int, amount: real) returns (ok: bool)
      modifies this
      ensures Snapshot() == Tables.RepayLoan(old(Snapshot()), userId, loanId, amount)
      ensures ok
    {
      if loanId in loans && loans[loanId].userId == userId && loans[loanId].status == LoanActive {
        var remaining := Max(loans[loanId].remaining - amount, 0.0);
        loans := loans[loanId := loans[loanId].(remaining := remaining)];
        if remaining <= 0.0 {
          loans := loans[loanId := loans[loanId].(status := LoanClosed)];
        }
      }
      ok := true;
    }

    // -------------------------------------------------------------------------------------
    // Investments
    // -------------------------------------------------------------------------------------

    method CreateInvestment(userId: int, businessId: Option<int>, strategy: string, amount: real,
                            expectedReturn: real, maturesAt: int, now: int) returns (investmentId: int)
      modifies this
      ensures Snapshot() == Tables.CreateInvestment(old(Snapshot()), userId, businessId, strategy, amount, expectedReturn, maturesAt, now)
      ensures investmentId == old(nextInvestmentId)
    {
      var strategyVolatility := Tables.StrategyVolatility(strategy);
      investmentId := nextInvestmentId;
      investments := investments[investmentId := Investment(userId, businessId, strategy, amount, expectedReturn,
        now, maturesAt, Active, amount, strategyVolatility, now)];
      nextInvestmentId := nextInvestmentId + 1;
    }

    method MarkMaturedInvestments(now: int) returns (ok: bool)
      modifies this
      ensures Snapshot() == Tables.MarkMaturedInvestments(old(Snapshot()), now)
      ensures ok
    {
      investments := map id | id in investments ::
        if investments[id].status == Active && investments[id].maturesAt <= now then investments[id].(status := Matured) else investments[id];
      ok := true;
    }

    method ClaimInvestment(userId: int, investmentId: int) returns (total: Option<real>)
      modifies this
      ensures total == Tables.ClaimPayout(old(Snapshot()), userId, investmentId)
      ensures Snapshot() == Tables.ClaimInvestment(old(Snapshot()), userId, investmentId)
    {
      if !(investmentId in investments && investments[investmentId].userId == userId) {
        return None;
      }
      var inv := investments[investmentId];
      if inv.status != Matured {
        return None;
      }
      var amount := Max(0.0, inv.currentValue);
      investments := investments[investmentId := inv.(status := Claimed)];
      total := Some(amount);
    }

    /** `update_investment_prices`: one pass over the active rows, each moved by its own draw. */
    method UpdateInvestmentPrices(ratios: map<int, real>, now: int) returns (ok: bool)
      requires Valid() && Tables.DrawsCover(Snapshot(), ratios)
      modifies this
      ensures Snapshot() == Tables.UpdateInvestmentPrices(old(Snapshot()), ratios, now)
      ensures ok
    {
      ghost var s := Snapshot();
      var rows := RepriceActiveRows(investments, ratios, now, nextInvestmentId);
      ghost var target := Tables.UpdateInvestmentPrices(s, ratios, now).investments;
      assert forall id | id in rows :: rows[id] == target[id];
      assert rows == target;
      investments := rows;
      ok := true;
    }

    /** `withdraw_investment`: the payout and the status before, or `None`. */
    method WithdrawInvestment(userId: int, investmentId: int) returns (r: Option<(real, InvestmentStatus)>)
      modifies this
      ensures r == Tables.WithdrawPayout(old(Snapshot()), userId, investmentId)
      ensures Snapshot() == Tables.WithdrawInvestment(old(Snapshot()), userId, investmentId)
    {
      if !(investmentId in investments && investments[investmentId].userId == userId
           && investments[investmentId].status in {Active, Matured}) {
        return None;
      }
      var inv := investments[investmentId];
      var currentValue := Max(0.0, inv.currentValue);
      var penalty := if inv.status == Matured then 0.0 else 0.05;
      var payout := Max(0.0, currentValue * (1.0 - penalty));
      investments := investments[investmentId := inv.(status := Withdrawn)];
      r := Some((payout, inv.status));
    }

    // -------------------------------------------------------------------------------------
    // Productions
    // -------------------------------------------------------------------------------------

    method CreateProduction(businessId: int, prodType: string, name: string, version: int, readyAt: int,
                            quantity: real, now: int) returns (prodId: int)
      modifies this
      ensures Snapshot() == Tables.CreateProduction(old(Snapshot()), businessId, prodType, name, version, readyAt, quantity, now)
      ensures prodId == old(nextProductionId)
    {
      prodId := nextProductionId;
      productions := productions[prodId := Production(businessId, prodType, name, version, InProgress, now, readyAt, quantity)];
      nextProductionId := nextProductionId + 1;
    }

    method CollectProduction(prodId: int, userIdCheck: int, now: int) returns (info: Option<Tables.CollectedJob>)
      modifies this
      ensures info == Tables.CollectInfo(old(Snapshot()), prodId, userIdCheck, now)
      ensures Snapshot() == Tables.CollectProduction(old(Snapshot()), prodId, userIdCheck, now)
    {
      if prodId !in productions || productions[prodId].businessId !in businesses {
        return None;
      }
      var p := productions[prodId];
      var userId := businesses[p.businessId].ownerId;
      if userId != userIdCheck {
        return None;
      }
      if !(p.readyAt <= now && p.status != Collected) {
        return None;
      }
      productions := productions[prodId := p.(status := Collected)];
      info := Some(Tables.CollectedJob(p.businessId, p.prodType, p.name, p.version, p.quantity, userId));
    }

    // -------------------------------------------------------------------------------------
    // PvP and cooldowns
    // -------------------------------------------------------------------------------------

    method EnsurePvpProfile(userId: int) returns (ok: bool)
      modifies this
      ensures Snapshot() == Tables.EnsurePvpProfile(old(Snapshot()), userId)
      ensures ok
    {
      if userId !in pvpProfiles {
        pvpProfiles := pvpProfiles[userId := Tables.FreshProfile];
      }
      ok := true;
    }

    method RecordPvpMatch(m: PvpMatch) returns (ok: bool)
      modifies this
      ensures Snapshot() == Tables.RecordPvpMatch(old(Snapshot()), m)
      ensures ok
    {
      pvpMatches := pvpMatches + [m];
      ok := true;
    }

    /** `update_pvp_ratings_after_match`, with `tenPow` the value of `math.pow(10, (l - w) / 400)`. */
    method UpdatePvpRatingsAfterMatch(winnerId: int, loserId: int, k: real, tenPow: real, now: int) returns (newRatings: (real, real))
      requires Tables.IsPow10Of(tenPow, Tables.EloExponent(Snapshot(), winnerId, loserId))
      modifies this
      ensures newRatings == Tables.NewRatings(old(Snapshot()), winnerId, loserId, k, tenPow)
      ensures Snapshot() == Tables.UpdatePvpRatings(old(Snapshot()), winnerId, loserId, k, tenPow, now)
    {
      ghost var s := Snapshot();
      var profiles := pvpProfiles;
      if winnerId !in profiles {
        profiles := profiles[winnerId := Tables.FreshProfile];
      }
      if loserId !in profiles {
        profiles := profiles[loserId := Tables.FreshProfile];
      }
      ghost var t := Tables.EnsurePvpProfile(Tables.EnsurePvpProfile(s, winnerId), loserId);
      assert profiles == t.pvpProfiles;
      var wRating := profiles[winnerId].rating;
      var lRating := profiles[loserId].rating;
      assert wRating == Tables.RatingOf(s, winnerId) && lRating == Tables.RatingOf(s, loserId);
      var expectedW := 1.0 / (1.0 + tenPow);
      var expectedL := 1.0 - expectedW;
      var newW := wRating + k * (1.0 - expectedW);
      var newL := lRating + k * (0.0 - expectedL);
      ghost var ratings := Tables.NewRatings(s, winnerId, loserId, k, tenPow);
      assert newW == ratings.0;
      assert newL == ratings.1;
      var afterWinner := profiles[winnerId := Tables.AfterWin(profiles[winnerId], newW, now)];
      profiles := afterWinner[loserId := Tables.AfterLoss(afterWinner[loserId], newL, now)];
      assert Tables.UpdatePvpRatings(s, winnerId, loserId, k, tenPow, now) == s.(pvpProfiles := profiles);
      pvpProfiles := profiles;
      newRatings := (newW, newL);
    }

    method SetPvpCooldown(userId: int, seconds: int, now: int) returns (ok: bool)
      modifies this
      ensures Snapshot() == Tables.SetPvpCooldown(old(Snapshot()), userId, seconds, now)
      ensures ok
    {
      if userId in pvpProfiles {
        pvpProfiles := pvpProfiles[userId := pvpProfiles[userId].(cooldownUntil := Some(now + seconds))];
      }
      ok := true;
    }

    method SetCooldown(userId: int, actionType: string, minutes: int, now: int) returns (ok: bool)
      modifies this
      ensures Snapshot() == Tables.SetCooldown(old(Snapshot()), userId, actionType, minutes, now)
      ensures ok
    {
      cooldowns := cooldowns[(userId, actionType) := now + minutes * 60];
      ok := true;
    }
  }
}
