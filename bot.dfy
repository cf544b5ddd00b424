/** The bot's callback and message handlers, written against the database object as the
    handlers are: each method performs the same reads and writes in the same order, and is
    proved to leave the store and return the answer that its `Handlers` step function
    describes. Telegram messages, keyboards and the conversation state are not modelled;
    the handler's answer is its result. */
module Bot {
  import opened Wrappers
  import opened Config
  import opened Records
  import GameLogic
  import AdvancedFeatures
  import Tables
  import Database
  import Handlers

  /** The balance and rating moves of a fought duel: the winner is paid the bet by the loser
      and the ratings are updated winner first; a draw moves nothing. */
  method Settle(db: Database.GameDatabase, userId: int, opponentId: int, userName: string, opponentName: string,
                outcome: Outcome, bet: real, tenPow: real, now: int)
    requires Tables.IsPow10Of(tenPow, Tables.EloExponent(db.Snapshot(), userId, opponentId))
    modifies db
    ensures db.Snapshot() == Handlers.Settle(old(db.Snapshot()), userId, opponentId, userName, opponentName, outcome, bet, tenPow, now)
  {
    ghost var s := db.Snapshot();
    if outcome == Win {
      var _ := db.UpdatePlayerBalance(userId, bet, "pvp_win", "Победа над " + opponentName, now);
      var _ := db.UpdatePlayerBalance(opponentId, -bet, "pvp_loss", "Поражение от " + userName, now);
      Handlers.EloExponentOfProfiles(s, db.Snapshot(), userId, opponentId);
      var _ := db.UpdatePvpRatingsAfterMatch(userId, opponentId, Handlers.EloK, tenPow, now);
    } else if outcome == Loss {
      var _ := db.UpdatePlayerBalance(userId, -bet, "pvp_loss", "Поражение от " + opponentName, now);
      var _ := db.UpdatePlayerBalance(opponentId, bet, "pvp_win", "Победа над " + userName, now);
      Handlers.EloExponentOfProfiles(s, db.Snapshot(), userId, opponentId);
      Tables.Pow10OfNegation(tenPow, Tables.EloExponent(s, userId, opponentId));
      var _ := db.UpdatePvpRatingsAfterMatch(opponentId, userId, Handlers.EloK, 1.0 / tenPow, now);
    }
  }

  /** `pvp_fight`: bet clamp, profile, cooldown gate, match row, settlement, cooldown. */
  method PvpFight(db: Database.GameDatabase, userId: int, opponentId: int, d: AdvancedFeatures.PvpDraws, tenPow: real, now: int)
    returns (r: Result<AdvancedFeatures.PvpResult, Handlers.Refusal>)
    requires AdvancedFeatures.ValidDraws(d) && Tables.IsPow10Of(tenPow, Tables.EloExponent(db.Snapshot(), userId, opponentId))
    modifies db
    ensures (db.Snapshot(), r) == Handlers.PvpFightStep(old(db.Snapshot()), userId, opponentId, d, tenPow, now)
  {
    ghost var s := db.Snapshot();
    var player := db.GetPlayer(userId);
    var opponent := db.GetPlayer(opponentId);
    if opponent.None? {
      return Failure(Handlers.OpponentMissing);
    }
    if player.None? {
      return Failure(Handlers.PlayerMissing);
    }
    var bet := Handlers.PvpBet(player.value.balance, opponent.value.balance);
    var _ := db.EnsurePvpProfile(userId);
    var remain := db.PvpCooldownRemaining(userId, now);
    if remain > 0 {
      return Failure(Handlers.OnCooldown(remain));
    }
    var result := AdvancedFeatures.PvpOutcome(player.value, opponent.value, bet, d);
    var _ := db.RecordPvpMatch(Handlers.MatchRow(userId, opponentId, bet, result, now));
    Handlers.EloExponentOfProfiles(s, db.Snapshot(), userId, opponentId);
    Settle(db, userId, opponentId, Handlers.DisplayName(player.value), Handlers.DisplayName(opponent.value), result.outcome, bet, tenPow, now);
    var _ := db.SetPvpCooldown(userId, Handlers.PvpCooldownSeconds, now);
    return Success(result);
  }

  /** `prod_collect`: hand the job over, then credit the drawn reward. */
  method ProdCollect(db: Database.GameDatabase, prodId: int, userId: int, d: Handlers.ProductionDraws, now: int)
    returns (r: Result<real, Handlers.Refusal>)
    requires Handlers.ValidProductionDraws(d)
    modifies db
    ensures (db.Snapshot(), r) == Handlers.ProdCollectStep(old(db.Snapshot()), prodId, userId, d, now)
  {
    ghost var s := db.Snapshot();
    var info := db.CollectProduction(prodId, userId, now);
    if info.None? {
      return Failure(Handlers.NotReady);
    }
    var job := info.value;
    var reward := Handlers.ProductionBase(job) * Handlers.RewardFactor(d);
    assert Tables.CollectInfo(s, prodId, userId, now) == Some(job);
    var _ := db.UpdatePlayerBalance(userId, reward, "production", "Операция по продукции: " + job.name, now);
    assert Handlers.ProdCollectStep(s, prodId, userId, d, now).1.value == reward;
    return Success(reward);
  }

  /** `loan_repay_quick`: clamp the payment to what remains, repay it, debit it. */
  method LoanRepayQuick(db: Database.GameDatabase, userId: int, loanId: int, amount: real, now: int)
    returns (r: Result<real, Handlers.Refusal>)
    modifies db
    ensures (db.Snapshot(), r) == Handlers.LoanRepayStep(old(db.Snapshot()), userId, loanId, amount, now)
  {
    var loan := db.GetLoanById(userId, loanId);
    if loan.None? {
      return Failure(Handlers.LoanNotFound);
    }
    var pay := if amount > loan.value.remaining then loan.value.remaining else amount;
    var _ := db.RepayLoan(userId, loanId, pay);
    var _ := db.UpdatePlayerBalance(userId, -pay, "loan_repay", "Погашение кредита #" + Handlers.IntToString(loanId), now);
    return Success(pay);
  }

  /** `take_preset_loan`: eligibility, loan terms, loan row, credit. */
  method TakePresetLoan(db: Database.GameDatabase, userId: int, amount: real, termDays: int, now: int)
    returns (r: Result<int, Handlers.Refusal>)
    modifies db
    ensures (db.Snapshot(), r) == Handlers.TakePresetLoanStep(old(db.Snapshot()), userId, amount, termDays, now)
  {
    var player := db.GetPlayer(userId);
    if player.None? {
      return Failure(Handlers.PlayerMissing);
    }
    var eligibility := AdvancedFeatures.LoanEligibility(player.value, amount);
    if !eligibility.Eligible? {
      return Failure(Handlers.NotEligible(eligibility));
    }
    var info := AdvancedFeatures.ProcessLoan(player.value, amount, termDays, now).value;
    var loanId := db.CreateLoan(userId, amount, info.interestRate, termDays, info.issuedAt, info.dueDate);
    var _ := db.UpdatePlayerBalance(userId, amount, "loan", "Кредит #" + Handlers.IntToString(loanId), now);
    return Success(loanId);
  }

  /** `take_investment`: balance check, investment row, debit. */
  method TakeInvestment(db: Database.GameDatabase, userId: int, strategy: string, amount: real, now: int)
    returns (r: Result<int, Handlers.Refusal>)
    modifies db
    ensures (db.Snapshot(), r) == Handlers.TakeInvestmentStep(old(db.Snapshot()), userId, strategy, amount, now)
  {
    var player := db.GetPlayer(userId);
    if player.None? {
      return Failure(Handlers.PlayerMissing);
    }
    if amount > player.value.balance {
      return Failure(Handlers.InsufficientFunds);
    }
    var expected := amount * AdvancedFeatures.InvestmentReturn(strategy).GetOr(0.12);
    var maturesAt := now + Handlers.InvestmentTermDays * AdvancedFeatures.SecondsPerDay;
    var investmentId := db.CreateInvestment(userId, None, strategy, amount, expected, maturesAt, now);
    var _ := db.UpdatePlayerBalance(userId, -amount, "investment", "Инвестиция #" + Handlers.IntToString(investmentId), now);
    return Success(investmentId);
  }

  /** `inv_withdraw`: withdraw, credit the payout, then move every active price. */
  method InvWithdraw(db: Database.GameDatabase, userId: int, investmentId: int, ratios: map<int, real>, now: int)
    returns (r: Result<(real, InvestmentStatus), Handlers.Refusal>)
    requires db.Valid() && Tables.DrawsCover(db.Snapshot(), ratios)
    modifies db
    ensures (db.Snapshot(), r) == Handlers.InvWithdrawStep(old(db.Snapshot()), userId, investmentId, ratios, now)
  {
    ghost var s := db.Snapshot();
    var payout := db.WithdrawInvestment(userId, investmentId);
    if payout.None? {
      return Failure(Handlers.InvestmentUnavailable);
    }
    var _ := db.UpdatePlayerBalance(userId, payout.value.0, "investment_withdraw", "Вывод по инвестиции #" + Handlers.IntToString(investmentId), now);
    Handlers.WithdrawKeepsDrawsCover(s, userId, investmentId, ratios, db.Snapshot());
    var _ := db.UpdateInvestmentPrices(ratios, now);
    return Success(payout.value);
  }

  /** `process_business_name`: strip, validate, add the business, debit the startup cost. */
  method ProcessBusinessName(db: Database.GameDatabase, userId: int, text: string, businessType: string, now: int)
    returns (r: Result<int, Handlers.Refusal>)
    modifies db
    ensures (db.Snapshot(), r) == Handlers.ProcessBusinessNameStep(old(db.Snapshot()), userId, text, businessType, now)
  {
    var name := Handlers.Strip(text);
    if |name| < 2 {
      return Failure(Handlers.NameTooShort);
    }
    var info := BusinessTypeOf(businessType);
    if info.None? {
      return Failure(Handlers.UnknownBusinessType);
    }
    var owned := db.GetPlayerBusinesses(userId);
    if |owned| >= Handlers.MaxBusinesses {
      return Failure(Handlers.BusinessLimit);
    }
    var businessId := db.AddBusiness(userId, businessType, name, info.value.baseIncome, info.value.baseExpenses);
    var startupCost := info.value.baseExpenses * 10.0;
    var _ := db.UpdatePlayerBalance(userId, -startupCost, "business_startup", "Запуск бизнеса '" + name + "'", now);
    return Success(businessId);
  }

  /** `buy_improvement`: find the business, check it and the balance, apply, debit. */
  method BuyImprovement(db: Database.GameDatabase, userId: int, businessId: int, improvementId: string, now: int)
    returns (r: Result<GameLogic.Applied, Handlers.Refusal>)
    modifies db
    ensures (db.Snapshot(), r) == Handlers.BuyImprovementStep(old(db.Snapshot()), userId, businessId, improvementId, now)
  {
    var businesses := db.GetPlayerBusinesses(userId);
    var found := Handlers.FindBusiness(businesses, businessId);
    if found.None? {
      return Failure(Handlers.BusinessNotFound);
    }
    var business := found.value;
    if improvementId in business.improvements {
      return Failure(Handlers.AlreadyBought);
    }
    var player := db.GetPlayer(userId);
    if player.None? {
      return Failure(Handlers.PlayerMissing);
    }
    if !GameLogic.CanAffordImprovement(player.value.balance, improvementId) {
      return Failure(Handlers.CannotAfford);
    }
    var a := GameLogic.ApplyImprovement(business, improvementId).value;
    var _ := db.UpdateBusiness(businessId, Some(a.newIncome), Some(a.newExpenses), None, Some(a.newImprovements));
    var title := match ImprovementOf(improvementId) case Some(imp) => imp.name case None => "";
    var _ := db.UpdatePlayerBalance(userId, -a.cost, "improvement", "Улучшение " + title, now);
    return Success(a);
  }

  /** `collect_daily_income`: the day's figures, the income, the experience, and at most one
      level-up. The player row read first is passed along but not consulted. */
  method CollectDailyIncome(db: Database.GameDatabase, userId: int, now: int)
    returns (r: Result<Handlers.DailyReport, Handlers.Refusal>)
    modifies db
    ensures (db.Snapshot(), r) == Handlers.CollectDailyIncomeStep(old(db.Snapshot()), userId, now)
  {
    var player := db.GetPlayer(userId);
    var businesses := db.GetPlayerBusinesses(userId);
    if businesses == [] {
      return Failure(Handlers.NoBusinesses);
    }
    var progress := GameLogic.CalculateDailyProgress(player.GetOr(Tables.FreshPlayer("", "", now)), businesses);
    var _ := db.UpdatePlayerBalance(userId, progress.netIncome, "daily_income", "Ежедневный доход", now);
    var newExp := db.AddExperience(userId, progress.experienceGained, now);
    if newExp.None? {
      return Success(Handlers.DailyReport(progress, None));
    }
    var current := db.GetPlayer(userId).value;
    if !GameLogic.CanLevelUp(current.experience, current.level) {
      return Success(Handlers.DailyReport(progress, None));
    }
    var levelUp := GameLogic.LevelUpPlayer(current);
    if levelUp.None? {
      return Success(Handlers.DailyReport(progress, None));
    }
    var lu := levelUp.value;
    var _ := db.ApplyLevelUp(userId, lu.newLevel, lu.remainingExperience, lu.bonuses.balanceBonus, lu.bonuses.popularityBonus, now);
    return Success(Handlers.DailyReport(progress, Some(lu)));
  }
}
