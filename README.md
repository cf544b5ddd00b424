# Business-empire game bot: the verified economy core

This project models the economy and state machine behind a Telegram business-simulation
game. Players found businesses and buy improvements for them, collect daily income, level up,
take loans, place investments, run production jobs and fight PvP duels. The model has three
layers.

- **Formulas.** `game_logic.dfy` (module `GameLogic`) and `advanced_features.dfy`
  (module `AdvancedFeatures`) cover:
  - daily income and expenses;
  - improvements, levels and achievements;
  - random events with the event passed in;
  - business value and competition bonus;
  - credit score, interest tiers, loan eligibility and loan terms;
  - player power and the duel outcome with its draws passed in;
  - synergy, investment potential and empire value.

  The tables they read are in `config.dfy` (module `Config`). Loops in the source become
  methods with loop invariants, each proved equal to a recursive specification function.
- **The store.** `tables.dfy` (module `Tables`) describes every operation of the SQLite
  database as a function on an immutable `Store`:
  - a map per keyed table;
  - the next AUTOINCREMENT id of each table;
  - append-only transaction, achievement and match sequences.

  `database.dfy` (module `Database`) is the class `GameDatabase`. It has one field per table.
  Each method updates the fields in place and is proved to leave
  `Snapshot() == Tables.X(old(Snapshot()), ...)`. The price walk over active investments is
  a loop.
- **The handlers.** `bot_spec.dfy` (module `Handlers`) states each handler as a step
  function, which gives the new store and the handler's answer. The lemmas there state what
  the handlers promise. `bot.dfy` (module `Bot`) runs the same database calls, in the same
  order, as methods on a `GameDatabase`. Each method is proved to produce exactly its step
  function's store and answer.

Inputs that are not part of the model become parameters:

- **Time** is an integer number of seconds, `now`.
- **Random draws** are passed in with range preconditions:
  - the duel multipliers and luck;
  - the production failure roll, loss and log-normal factor;
  - one price ratio per active investment.
- **The Elo expectation's `10 ** (d / 400)`** is a parameter `tenPow`. `Tables.IsPow10Of`
  constrains it: it is positive, equals 1 when `d` is 0, and lies on the same side of 1 as
  the sign of `d`.

The Elo update of `update_pvp_ratings_after_match` (database.py:1202-1205) is modelled as written. The loser loses K × E_loser = K(1 − E_winner), exactly what the winner gains, so the two ratings keep their sum (`Tables.EloExchangeZeroSum`).

## Model

| member | source | states |
|---|---|---|
| Config.BusinessTypeOf | config.py:28-75 | every business type has a base income above its base expenses, which are positive, and a growth rate of at least 1 |
| Config.ImprovementOf | config.py:109-136 | the improvement table: each entry has a positive cost and non-negative boosts |
| GameLogic.BoostOf | game_logic.py:17-21 | an id contributes its income or expense boost; an unknown id or a missing boost contributes 0 |
| GameLogic.CalculateDailyIncome | game_logic.py:12-23 | the for-loop returns income × (1 + Σ income boosts) × 0.1 |
| GameLogic.CalculateDailyExpenses | game_logic.py:25-40 | the for-loop returns expenses × (1 + Σ expense boosts) × 0.05 + the staff salary, with an absent salary counting as 0 |
| GameLogic.BoostSumNonNegative | game_logic.py:17-21 | the boost sum is never negative |
| GameLogic.BoostSumConcat | game_logic.py:17-21 | the boost sum of a concatenation is the sum of the two boost sums |
| GameLogic.BoostSumOrderIndependent | game_logic.py:17-21 | swapping two blocks of the improvement list does not change the boost sum |
| GameLogic.UnknownImprovementIgnored | game_logic.py:17-21 | inserting an id the table does not know changes neither daily figure |
| GameLogic.CoffeeShopWithEquipmentScenario | test_game.py:34-51 | income 1000, expenses 500 and `['equipment']` give income 120, expenses 25 and net 95 |
| GameLogic.CanAffordImprovement | game_logic.py:92-96 | true exactly when the id is known and the balance covers its cost |
| GameLogic.ApplyImprovement | game_logic.py:98-129 | unknown ids fail first, then ids already applied; on success the list gains the id once, income and expenses scale by (1 + boost), and the cost is the table cost |
| GameLogic.ApplyImprovementKeepsDistinct | game_logic.py:98-129 | a duplicate-free list stays duplicate-free, and its multiset gains exactly the id |
| GameLogic.AffordableImprovementApplies | game_logic.py:92-129 | an affordable improvement not yet applied applies, and paying for it leaves a non-negative balance |
| GameLogic.AppliedImprovementCountsTwice | game_logic.py:98-129 | the stored income already carries the boost, and the daily formula multiplies by it a second time |
| GameLogic.LevelUpExperience | game_logic.py:143-145 | the threshold is a whole thousand per current level, at least 1000 from level 1 up |
| GameLogic.CanLevelUp | game_logic.py:147-150 | true exactly when the experience reaches level × 1000 |
| GameLogic.LevelThresholdsGrow | game_logic.py:143-150 | each level needs 1000 more than the one before, so whoever can pass a level can pass the one below |
| GameLogic.LevelUpPlayer | game_logic.py:143-173 | succeeds exactly when xp ≥ level × 1000; the new level is L+1, the remaining xp is xp − L×1000 ≥ 0, the balance bonus is (L+1)×1000 and the popularity bonus is 0.1 |
| GameLogic.CalculateDailyProgress | game_logic.py:203-226 | the loop returns the total income, the total expenses, net = income − expenses, and experience summed per business |
| GameLogic.ExperienceAtMostTenthOfTotal | game_logic.py:217 | with non-negative incomes, the per-business truncation never yields more experience than a tenth of the total |
| GameLogic.ExperienceTruncatedPerBusiness | game_logic.py:217 | two businesses earning 5 a day each give 0 experience, although a tenth of the total is 1 |
| GameLogic.CheckAchievements | game_logic.py:228-269 | each of the five entries is listed exactly when its threshold holds, and only table entries are listed |
| GameLogic.CheckAchievementsInTableOrder | game_logic.py:228-269 | the entries come in table order, strictly, so each satisfied entry is listed exactly once |
| GameLogic.AchievementsMonotone | game_logic.py:228-269 | more balance, level and businesses never lose an achievement |
| GameLogic.ApplyRandomEvent | game_logic.py:58-90 | positive events add to income and popularity, negative ones cost expenses; any other kind has no effect |
| GameLogic.TableEventsHaveTheirSign | game_logic.py:58-90 | every event of the table helps when positive and hurts when negative |
| GameLogic.BusinessValue | game_logic.py:131-141 | never below thirty days of income for a non-negative income from level 1 up, and exactly thirty days at level 1 without improvements |
| GameLogic.BusinessValueGrowsWithImprovements | game_logic.py:131-141 | each improvement adds 5% of the improvement-free value |
| GameLogic.CompetitionBonus | game_logic.py:175-182 | above 1, equal to 1 or below 1 exactly when the player is more, equally or less popular |
| GameLogic.CompetitionGainIsTwiceTheLoss | game_logic.py:175-182 | the more popular side gains twice what the other side loses |
| AdvancedFeatures.InvestmentReturn | advanced_features.py:7-24 | every strategy's expected return lies strictly between 0 and 1 |
| AdvancedFeatures.CreditScore | advanced_features.py:52-69 | the raw score (from level, experience, popularity and overspending), floored at 100 |
| AdvancedFeatures.CreditScoreScenario | advanced_features.py:52-80 | level 3, xp 2500 and popularity 1.2 without overspending score 572 at rate 0.04 |
| AdvancedFeatures.CreditScoreMonotone | advanced_features.py:52-69 | a higher level never lowers the score, and overspending costs at most 100 points |
| AdvancedFeatures.InterestRate | advanced_features.py:71-80 | the rate lies in [0.02, 0.05], and is at most 0.04 from a score of 500 up |
| AdvancedFeatures.InterestRateNonIncreasing | advanced_features.py:71-80 | a better score never gets a higher rate |
| AdvancedFeatures.LoanEligibility | advanced_features.py:26-50 | the amount check comes first (cap 2×balance), then the score check (< 500); an eligible verdict carries the tier rate, never 0.05 |
| AdvancedFeatures.ProcessLoan | advanced_features.py:82-110 | succeeds exactly when eligible, with the verdict as the error otherwise; the offer keeps amount and term, interest = amount × rate × days, total payment = amount + interest; due date = issue date + days × 86400 |
| AdvancedFeatures.LoanCostBounds | advanced_features.py:82-110 | an approved loan costs between 2% and 4% of the amount per day |
| AdvancedFeatures.PlayerPower | advanced_features.py:231-247 | the level, experience and popularity terms plus a balance term between 0 and 1000 (for a non-negative balance), which reaches 1000 at a balance of one million |
| AdvancedFeatures.BalancePowerCapped | advanced_features.py:231-247 | the balance adds at most 1000 power, and more balance never lowers the power |
| AdvancedFeatures.Classify | advanced_features.py:191-205 | a draw exactly when \|f1 − f2\| ≤ 0.02 × max(f1, f2, 1); otherwise a win exactly when f1 > f2 |
| AdvancedFeatures.PvpOutcome | advanced_features.py:176-229 | final power = power × rand × (1 + luck); the outcome is classified from the final powers; rewards and penalties follow the outcome |
| AdvancedFeatures.ClassifyMirror | advanced_features.py:191-205 | swapping the final powers swaps win and loss and keeps a draw |
| AdvancedFeatures.PvpOutcomeSwapSymmetric | advanced_features.py:176-229 | swapping the players together with their draws mirrors the outcome |
| AdvancedFeatures.WinNeedsMargin | advanced_features.py:191-205 | the loser's power is below 98% of the winner's |
| AdvancedFeatures.LexLeAntisymmetric | advanced_features.py:300 | Python's string order is antisymmetric |
| AdvancedFeatures.LexLeTotal | advanced_features.py:300 | Python's string order is total |
| AdvancedFeatures.SortedPairSymmetric | advanced_features.py:300 | the sorted pair does not depend on the argument order |
| AdvancedFeatures.BusinessSynergy | advanced_features.py:294-336 | a synergy exactly when the sorted pair of types is in the table; it carries that table entry, its bonus as the income bonus and half of it as the expense reduction |
| AdvancedFeatures.CoffeeShopRestaurantSynergy | advanced_features.py:299-304 | a coffee shop with a restaurant, in either order, gives a 0.15 income bonus and a 0.075 expense reduction |
| AdvancedFeatures.BusinessSynergySymmetric | advanced_features.py:294-336 | synergy is symmetric in its two businesses |
| AdvancedFeatures.InvestmentPotential | advanced_features.py:112-146 | growth potential and risk are the business type's `growth_rate` and `risk_level`, or 1.0 and medium for an unknown type; improvement bonus 1 + 0.1 per improvement; recommended amount min(amount, 5×income); expected return = growth × bonus × 0.15 × risk multiplier > 0 |
| AdvancedFeatures.InvestmentPotentialGrowsWithImprovements | advanced_features.py:112-146 | another improvement never lowers the expected return |
| AdvancedFeatures.CountSynergyBonus | advanced_features.py:352-360 | the inner loop returns 1 + 5% per other business that has a synergy |
| AdvancedFeatures.CalculateEmpireValue | advanced_features.py:338-384 | the nested loops return the empire report of the specification function |
| AdvancedFeatures.LoneBusinessEmpire | advanced_features.py:338-384 | a level-1 player's lone business is worth its business value |
| AdvancedFeatures.SynergyIsMutual | advanced_features.py:338-384 | two synergetic businesses raise each other's value by the same 5% |
| Tables.Empty | database.py:12-246 | the empty store is valid |
| Tables.AddPlayer | database.py:248-264 | INSERT OR IGNORE: a new row with the defaults (balance 10000); an existing row is untouched |
| Tables.Booked | database.py:295-303 | the balance moves by the amount, the totals only grow, and balance − income + expenses is invariant |
| Tables.UpdatePlayerBalance | database.py:288-315 | exactly one audit row is appended even without a player row; only that player's row is booked |
| Tables.BookingSplitsByDirection | database.py:295-303 | income is booked only for amount > 0 and expenses only for amount < 0, never both |
| Tables.UpdatePlayerPopularity | database.py:992-1005 | the popularity becomes max(p + delta, 0); nothing else changes |
| Tables.AddExperience | database.py:1007-1022 | the new experience is returned exactly when the player exists; otherwise nothing changes |
| Tables.ApplyLevelUp | database.py:1024-1042 | sets level and experience and adds both bonuses, without an audit row |
| Tables.LevelUpBonusBypassesLedger | database.py:1024-1042 | ledger bookings keep balance − income + expenses, and a level-up bonus shifts it |
| Tables.AddBusiness | database.py:317-334 | a level-1 row without improvements under the next id; validity is kept |
| Tables.UpdateBusiness | database.py:362-397 | only the given columns of that row change |
| Tables.BusinessesOf | database.py:336-360 | every listed row belongs to the player |
| Tables.BusinessesOfComplete | database.py:336-360 | every business the player owns is listed |
| Tables.OwnedBelowAgree | database.py:336-360 | stores that agree on the business rows list the same businesses |
| Tables.AddBusinessListsIt | database.py:317-360 | a new business is listed last among its owner's, and nobody else's list changes |
| Tables.ImprovementsSaleValue | database.py:1348-1411 | the improvements fetch 70% of their table costs, never a negative amount |
| Tables.SalePrice | database.py:1369-1382 | at least ten days of income plus 1000 per level above the first; the improvements never lower it |
| Tables.SalePriceGrowsByImprovement | database.py:1348-1411 | each known improvement adds 70% of its cost to the price |
| Tables.SaleOf | database.py:1348-1411 | a price exactly for the caller's own existing business |
| Tables.SellBusiness | database.py:1348-1411 | deletes the row and credits only the balance; a foreign or missing row changes nothing |
| Tables.CreateLoan | database.py:737-752 | an active loan owing its full amount under the next id; sound books stay sound |
| Tables.RepayLoan | database.py:808-828 | on the caller's active loan, remaining := max(remaining − amount, 0), closing exactly when it reaches 0; other loans are untouched |
| Tables.ClosedLoanUntouched | database.py:808-828 | a closed loan is never changed |
| Tables.FullRepaymentCloses | database.py:808-828 | paying the remainder closes the loan at 0 |
| Tables.StrategyVolatility | database.py:830-854 | the volatility each strategy gets is positive |
| Tables.CreateInvestment | database.py:830-854 | an active row with current value = amount under the next id; values stay non-negative |
| Tables.MarkMaturedInvestments | database.py:887-900 | each row is matured if it is active and due, and left alone otherwise |
| Tables.MarkMaturedOnlyMatures | database.py:887-900 | only the status changes, active → matured, exactly for due rows |
| Tables.MarkMaturedKeepsInvariants | database.py:887-900 | validity and non-negative values are kept |
| Tables.MarkMaturedIdempotent | database.py:887-900 | the pass is idempotent, and a later pass subsumes an earlier one |
| Tables.UpdateInvestmentPrices | database.py:930-960 | each active row gets max(0, cv × (1 + ratio)); other rows are unchanged |
| Tables.RepriceTouchesOnlyActive | database.py:930-960 | rows that are not active keep everything; active rows get a non-negative value |
| Tables.RepriceKeepsInvariants | database.py:930-960 | validity and non-negative values are kept |
| Tables.RepriceWithinVolatility | database.py:930-960 | a value moves by at most its volatility, with a stored 0 read as 0.05 |
| Tables.ClaimPayout | database.py:902-928 | pays max(0, cv) exactly for the caller's matured row |
| Tables.ClaimInvestment | database.py:902-928 | a paid row becomes claimed |
| Tables.ClaimPaysOnce | database.py:902-928 | after a claim, neither a claim nor a withdrawal by anyone pays again |
| Tables.WithdrawPayout | database.py:962-990 | the caller's active or matured row pays max(0, cv) × 0.95 if active and × 1 if matured, returned with the prior status |
| Tables.WithdrawInvestment | database.py:962-990 | a paid row becomes withdrawn |
| Tables.EarlyWithdrawalScenario | database.py:830-854 | withdrawing 20000 straight after investing it pays 19000 and reports the row as active |
| Tables.CreateProduction | database.py:1044-1059 | an in-progress job under the next id |
| Tables.CollectInfo | database.py:1096-1139 | the job is handed over exactly when it exists, its business belongs to the caller, it is ready and it is not collected |
| Tables.CollectProduction | database.py:1096-1139 | a job that is handed over becomes collected; otherwise nothing changes |
| Tables.CollectAtMostOnce | database.py:1096-1139 | after a collect, nobody can collect the job again, ever |
| Tables.NoCollectBeforeReady | database.py:1096-1139 | nothing is collected before `ready_at` |
| Tables.EnsurePvpProfile | database.py:1141-1151 | INSERT OR IGNORE of a profile with rating 1000 |
| Tables.Pow10OfNegation | database.py:1202 | 10^−x is 1 / 10^x |
| Tables.WinnerGain | database.py:1202-1205 | for K > 0 the gain lies strictly between 0 and K |
| Tables.NewRatings | database.py:1191-1221 | the winner gains K(1 − E), and the loser loses exactly the same |
| Tables.UpdatePvpRatings | database.py:1191-1221 | creates missing profiles and touches only the two players' profiles |
| Tables.EloExchangeZeroSum | database.py:1202-1205 | the sum of the two ratings is preserved |
| Tables.EloCounters | database.py:1206-1219 | the winner's wins +1 with streak max(streak, 0) + 1; the loser's losses +1 with streak min(streak, 0) − 1 |
| Tables.RecordPvpMatch | database.py:1174-1189 | appends exactly the match row |
| Tables.AddAchievement | database.py:491-507 | appends exactly the achievement row |
| Tables.SetPvpCooldown | database.py:1283-1296 | an UPDATE: sets `cooldown_until` = now + seconds only on an existing profile |
| Tables.PvpCooldownRemaining | database.py:1298-1310 | max(0, until − now), and 0 without a profile or a cooldown |
| Tables.SetCooldown | database.py:1312-1326 | upserts the expiry now + minutes × 60 |
| Tables.CooldownRemaining | database.py:1328-1346 | max(0, expires − now), and 0 without a row |
| Tables.CooldownLifecycle | database.py:1312-1346 | a new cooldown has its full length left, runs out, never grows, and leaves other keys alone |
| Tables.PvpCooldownLifecycle | database.py:1283-1310 | a set PvP cooldown has its full length left when the profile exists, none without a profile (UPDATE only), and runs out |
| Database.RepriceActiveRows | database.py:941-954 | the loop gives every active row max(0, cv × (1 + ratio)), leaves the other rows, and keeps the keys |
| Database.GameDatabase.constructor | database.py:8-10 | every table is empty |
| Database.GameDatabase.GetPlayer | database.py:266-285 | the player's row exactly when it exists |
| Database.GameDatabase.GetPlayerBusinesses | database.py:336-360 | only the player's own rows, as stored, and in a valid store every row the player owns |
| Tables.BusinessesOfListsAllOwned | database.py:336-360 | in a valid store the listing holds every business the player owns |
| Database.GameDatabase.GetLoanById | database.py:782-806 | the caller's loan with that id whatever its status, and an active one exactly when `repay_loan` would accept it |
| Database.GameDatabase.PvpCooldownRemaining | database.py:1298-1310 | the seconds left until `cooldown_until`, 0 without a profile or a running cooldown |
| Database.GameDatabase.GetCooldownRemaining | database.py:1328-1346 | the seconds left until the action's expiry, 0 without a row or once it has passed |
| Database.GameDatabase.AddPlayer | database.py:248-264 | the new state is `Tables.AddPlayer` of the old |
| Database.GameDatabase.UpdatePlayerBalance | database.py:288-315 | the new state is `Tables.UpdatePlayerBalance` of the old |
| Database.GameDatabase.UpdatePlayerPopularity | database.py:992-1005 | the new state is `Tables.UpdatePlayerPopularity` of the old |
| Database.GameDatabase.AddExperience | database.py:1007-1022 | the new state and result are `Tables.AddExperience` of the old |
| Database.GameDatabase.ApplyLevelUp | database.py:1024-1042 | the new state is `Tables.ApplyLevelUp` of the old |
| Database.GameDatabase.AddAchievement | database.py:491-507 | the new state is `Tables.AddAchievement` of the old |
| Database.GameDatabase.AddBusiness | database.py:317-334 | the new state is `Tables.AddBusiness` of the old; the id returned is the next one |
| Database.GameDatabase.UpdateBusiness | database.py:362-397 | with no column to set it reports false and changes nothing; otherwise it is `Tables.UpdateBusiness` |
| Database.GameDatabase.SellBusiness | database.py:1348-1411 | returns the price and performs `Tables.SellBusiness` |
| Database.GameDatabase.CreateLoan | database.py:737-752 | the new state is `Tables.CreateLoan` of the old; the id returned is the next one |
| Database.GameDatabase.RepayLoan | database.py:808-828 | the new state is `Tables.RepayLoan` of the old |
| Database.GameDatabase.CreateInvestment | database.py:830-854 | the new state is `Tables.CreateInvestment` of the old; the id returned is the next one |
| Database.GameDatabase.MarkMaturedInvestments | database.py:887-900 | the new state is `Tables.MarkMaturedInvestments` of the old |
| Database.GameDatabase.ClaimInvestment | database.py:902-928 | returns the claim payout and performs `Tables.ClaimInvestment` |
| Database.GameDatabase.UpdateInvestmentPrices | database.py:930-960 | the new state is `Tables.UpdateInvestmentPrices` of the old |
| Database.GameDatabase.WithdrawInvestment | database.py:962-990 | returns the withdrawal payout and performs `Tables.WithdrawInvestment` |
| Database.GameDatabase.CreateProduction | database.py:1044-1059 | the new state is `Tables.CreateProduction` of the old |
| Database.GameDatabase.CollectProduction | database.py:1096-1139 | returns the collected job and performs `Tables.CollectProduction` |
| Database.GameDatabase.EnsurePvpProfile | database.py:1141-1151 | the new state is `Tables.EnsurePvpProfile` of the old |
| Database.GameDatabase.RecordPvpMatch | database.py:1174-1189 | the new state is `Tables.RecordPvpMatch` of the old |
| Database.GameDatabase.UpdatePvpRatingsAfterMatch | database.py:1191-1221 | returns the new ratings and performs `Tables.UpdatePvpRatings` |
| Database.GameDatabase.SetPvpCooldown | database.py:1283-1296 | the new state is `Tables.SetPvpCooldown` of the old |
| Database.GameDatabase.SetCooldown | database.py:1312-1326 | the new state is `Tables.SetCooldown` of the old |
| Handlers.Digits | bot.py:447 | at least one character, every one a decimal digit |
| Handlers.TrimStart | bot.py:253 | drops exactly the leading whitespace |
| Handlers.TrimEnd | bot.py:253 | drops exactly the trailing whitespace |
| Handlers.Strip | bot.py:253 | `str.strip()`: the slice between the leading and trailing whitespace runs, with non-space ends |
| Handlers.StripNoOp | bot.py:253 | text without whitespace at either end is its own strip |
| Handlers.StripIdempotent | bot.py:253 | stripping twice is stripping once |
| Handlers.PvpBet | bot.py:641-648 | the bet is a whole number in (0, 10000]; with both balances ≥ 2 it is at most half of each, otherwise it is 1000 |
| Handlers.MatchRow | bot.py:657-659 | the challenger is the winner on a win and the loser on a loss; a draw has neither |
| Handlers.EloExponentOfProfiles | database.py:1197-1202 | only the two ratings enter the Elo exponent, which changes sign when the roles swap |
| Handlers.Settle | bot.py:660-671 | a draw changes nothing |
| Handlers.PvpFightStep | bot.py:638-674 | a refusal leaves the store unchanged, or at most with the challenger's profile created |
| Handlers.PvpCooldownBlocksFight | bot.py:650-654 | a running cooldown refuses before any match, balance or rating change |
| Handlers.RatingsMove | database.py:1191-1221 | the winner's rating goes up and the loser's goes down by the same gain |
| Handlers.SettleEffects | bot.py:660-671 | win: challenger +bet and +gain, opponent −bet and −gain; a loss is the mirror image with 1/10^x; nobody else moves |
| Handlers.SettledAndCooled | bot.py:660-673 | the cooldown after the settlement moves no balance or rating |
| Handlers.FoughtStore | bot.py:638-674 | a fought duel is profile, match row, settlement and cooldown, in that order |
| Handlers.PvpFightRecordsAndCools | bot.py:657-659 | every fought duel, a draw included, appends exactly one match row and leaves 30 s of cooldown |
| Handlers.PvpWinSettles | bot.py:660-663 | on a win the challenger gains the bet and the Elo gain, and the opponent loses both |
| Handlers.PvpLossSettles | bot.py:664-667 | on a loss the bet moves from the challenger to the opponent |
| Handlers.PvpLossRatings | bot.py:664-667 | on a loss the opponent gains exactly what the challenger loses, with the exponent negated |
| Handlers.PvpDrawSettles | bot.py:668-669 | a draw moves no balance and no rating |
| Handlers.PvpBystandersUntouched | bot.py:638-674 | no other player's row changes |
| Handlers.PvpFightZeroSum | bot.py:655-671 | the two balances and the two ratings keep their sums in every outcome |
| Handlers.ProductionBase | bot.py:795-801 | 20000 for IT, quantity × 50 for FARM, quantity × 120 for FACTORY, 0 otherwise |
| Handlers.RewardFactor | bot.py:802-808 | in [−0.8, −0.2] on a failure roll below 0.1, and in [0.2, 10] otherwise |
| Handlers.ProdCollectStep | bot.py:789-821 | nothing is paid exactly when `collect_production` hands nothing over |
| Handlers.ProdCollectReward | bot.py:794-808 | the reward is base × factor, within [−0.8, −0.2] × base after a failure roll and [0.2, 10] × base otherwise |
| Handlers.ProdCollectCredits | bot.py:817-819 | the reward is credited to the caller and no other player row changes |
| Handlers.ProdCollectOnce | bot.py:789-821 | once the job is paid, nobody can collect it again at any later time |
| Handlers.LoanRepayStep | bot.py:439-453 | an unknown or foreign loan changes nothing; the payment is the amount clamped to what remains |
| Handlers.RepayQuickClamps | bot.py:439-453 | the balance falls by the clamped payment; an active loan's remainder falls by it and closes exactly when paid off; a closed loan costs 0; the loan book stays sound |
| Handlers.TakePresetLoanStep | bot.py:411-436 | a granted loan's id is the next loan id |
| Handlers.PresetLoanIffEligible | bot.py:411-436 | granted exactly when eligible: active, full amount owed, tier rate, due in `termDays` days, amount credited; otherwise nothing changes |
| Handlers.TakeInvestmentStep | bot.py:556-576 | a refusal changes nothing; success returns the next investment id |
| Handlers.TakeInvestmentCovered | bot.py:556-576 | placed exactly when the balance covers it; active at the full amount, expected return amount × rate (default 0.12), matures in 3 days, balance stays ≥ 0 |
| Handlers.WithdrawKeepsDrawsCover | bot.py:590-607 | the price draws still cover the active rows after a withdrawal |
| Handlers.InvWithdrawStep | bot.py:590-607 | refused exactly when `withdraw_investment` pays nothing; otherwise answers its payout |
| Handlers.InvWithdrawPaysOnce | bot.py:590-607 | credits the payout, leaves the row withdrawn for good, and keeps values non-negative |
| Handlers.ProcessBusinessNameStep | bot.py:251-291 | a refusal changes nothing; success returns the next business id |
| Handlers.BusinessLimitHolds | bot.py:251-291 | nobody gets a third business here; a new business is listed last, is named by the stripped text (≥ 2 chars) and costs 10 × base expenses |
| Handlers.FindBusiness | bot.py:943 | the first row with that id, or none |
| Handlers.FindOwnedBusiness | bot.py:942-943 | in a valid store the search finds exactly the caller's row with that id |
| Handlers.BuyImprovementStep | bot.py:934-980 | every refusal changes nothing |
| Handlers.BuyImprovementOnce | bot.py:934-980 | the balance falls by the table cost and stays ≥ 0; the id is appended and the list stays duplicate-free; buying again is refused |
| Handlers.CollectDailyIncomeStep | bot.py:1103-1155 | refused exactly without businesses; the report carries that day's progress |
| Handlers.DailyIncomeOneLevelAtMost | bot.py:1103-1155 | one audit row for the net income; at most one level gained; the bonus bypasses the ledger |
| Bot.Settle | bot.py:660-671 | performs exactly `Handlers.Settle` |
| Bot.PvpFight | bot.py:638-674 | leaves the store and answers exactly as `Handlers.PvpFightStep` |
| Bot.ProdCollect | bot.py:789-821 | leaves the store and answers exactly as `Handlers.ProdCollectStep` |
| Bot.LoanRepayQuick | bot.py:439-453 | leaves the store and answers exactly as `Handlers.LoanRepayStep` |
| Bot.TakePresetLoan | bot.py:411-436 | leaves the store and answers exactly as `Handlers.TakePresetLoanStep` |
| Bot.TakeInvestment | bot.py:556-576 | leaves the store and answers exactly as `Handlers.TakeInvestmentStep` |
| Bot.InvWithdraw | bot.py:590-607 | leaves the store and answers exactly as `Handlers.InvWithdrawStep` |
| Bot.ProcessBusinessName | bot.py:251-291 | leaves the store and answers exactly as `Handlers.ProcessBusinessNameStep` |
| Bot.BuyImprovement | bot.py:934-980 | leaves the store and answers exactly as `Handlers.BuyImprovementStep` |
| Bot.CollectDailyIncome | bot.py:1103-1155 | leaves the store and answers exactly as `Handlers.CollectDailyIncomeStep` |

## Left out

**Outside the model.**

- SQLite itself is not modelled: connections, DDL, the soft migration and error handling that prints and returns a default. The model keeps the tables as maps and sequences and assumes no database error.
- The rowcount guard in `collect_production` protects against concurrent collects. Handlers run one at a time here, so "exactly once" means a second collect fails.
- Telegram transport is not modelled: message texts, keyboards, the FSM routing and the menus re-rendered after an action. In `process_business_name`, the business type from the FSM state is a parameter.
- `math.pow(10, d/400)` is the parameter `tenPow`, constrained by `Tables.IsPow10Of`. Wall-clock time is the integer `now`. The `random` draws are parameters with their ranges as preconditions.
- Floats are modelled as exact reals, so rounding is not modelled.
- The source uses two clocks. It writes `matures_at` (bot.py:567) and `ready_at` (bot.py:780) from local `datetime.now()`, but compares them with SQLite's UTC `datetime('now')` (database.py:893, database.py:1119). The model's single `now` hides this offset: on a host not set to UTC, maturity and readiness move by the UTC offset, and west of UTC a short production job can be collected at once.
- These parts carry no rule the core relies on:
  - the read-only listings (top players, PvP top, match history, admin lists);
  - employees, visitors and reviews;
  - `update_rating`;
  - name generation;
  - `get_random_event`, whose result `ApplyRandomEvent` takes as a parameter;
  - the `src/` package.
- `show_achievements` records every satisfied achievement again on each visit. It is not one of the modelled handlers. `GameLogic.CheckAchievements` depends only on the player and the businesses, so it takes no account of what was recorded before.

**Where the model differs from the source.**

- Each handler's falsy-id branch is not modelled: `if loan_id:`, `if inv_id:` and `if business_id:`. In a valid store ids are at least 1, so an id returned by an INSERT is always truthy.
- Crashes on a missing player row are modelled as follows:
  - In `pvp_fight`, `buy_improvement`, `take_preset_loan` (bot.py:416) and `take_investment` (bot.py:561-562) a missing row crashes before any write, so it is the refusal `PlayerMissing`.
  - In `collect_daily_income` the player row is read but never used before the writes (bot.py:1106-1124). A caller without a player row but with businesses is therefore modelled as a success. It still writes the `daily_income` audit row, and it gains no experience and no level.
  - In `process_business_name` the crash comes after the writes, in message formatting, so it is modelled as a success.
- `loan_repay_quick` reads the loan whatever its status. On a closed loan it pays 0 and writes a zero audit row. The model keeps that behaviour.
- Tables.BusinessesOf: lists the rows in id order. The query at database.py:343 has no ORDER BY, so SQLite makes no promise about the order. The "listed last" part of `Tables.AddBusinessListsIt` and `Handlers.BusinessLimitHolds` depends on this choice.

**Deliberately weaker contracts.**

- Handlers.PvpFightZeroSum: stated for two different players only. A self-challenge is not covered.
- Handlers.PvpWinSettles, Handlers.PvpLossSettles, Handlers.PvpLossRatings, Handlers.PvpDrawSettles, Handlers.PvpBystandersUntouched: also stated for two different players only.
- Handlers.RepayQuickClamps: proved for non-negative payments on sound loan books only. The source accepts forged negative amounts in the callback data, and they would raise the debt.
- Handlers.TakeInvestmentCovered: stated for players whose balance is not negative. The 95% early-withdrawal payout is stated only for non-negative amounts.
- Tables.CreateLoan: keeps loan soundness only for non-negative amounts.
- Tables.CreateInvestment: keeps non-negative values only for non-negative amounts.
- Bot.InvWithdraw: requires a valid store and price draws for every active row. The source wraps the price update in a try/except that this model does not have.
- Database.GameDatabase.UpdateInvestmentPrices: requires a valid store, for the same reason as `Bot.InvWithdraw`.
- GameLogic.ExperienceAtMostTenthOfTotal: assumes non-negative daily incomes.
- Tables.RepriceWithinVolatility: stated only for an active row whose current value is not negative.
