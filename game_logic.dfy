/** The economy formulas: daily figures, improvements, levels, achievements, events. */
module GameLogic {
  import opened Wrappers
  import opened Config
  import opened Records

  // ---------------------------------------------------------------------------------------
  // Daily income and expenses
  // ---------------------------------------------------------------------------------------

  /** Which of a business's two figures an improvement boosts. */
  datatype Figure = IncomeFigure | ExpenseFigure

  /** The boost one listed id adds to a figure: 0 for an id the table does not know and for
      an improvement that does not define that boost. */
  function BoostOf(f: Figure, id: string): (r: real)
    ensures r >= 0.0
    ensures ImprovementOf(id).None? ==> r == 0.0
  {
    match ImprovementOf(id)
    case None => 0.0
    case Some(imp) =>
      match f
      case IncomeFigure => imp.incomeBoost.GetOr(0.0)
      case ExpenseFigure => imp.expenseBoost.GetOr(0.0)
  }

  /** The sum of the boosts of the listed ids, accumulated from the front as the source does. */
  function BoostSum(f: Figure, ids: seq<string>): real
  {
    if ids == [] then 0.0 else BoostSum(f, ids[..|ids| - 1]) + BoostOf(f, ids[|ids| - 1])
  }

  /** Daily income: income x (1 + sum of income boosts) x the daily-income multiplier. */
  function DailyIncome(income: real, improvements: seq<string>): real
  {
    income * (1.0 + BoostSum(IncomeFigure, improvements)) * DailyIncomeMultiplier
  }

  /** Daily expenses: expenses x (1 + sum of expense boosts) x the daily-expense multiplier,
      plus the staff salary (0 when absent). */
  function DailyExpenses(expenses: real, improvements: seq<string>, staffSalary: Option<real>): real
  {
    expenses * (1.0 + BoostSum(ExpenseFigure, improvements)) * DailyExpenseMultiplier + staffSalary.GetOr(0.0)
  }

  /** `calculate_daily_income`: the for-loop over the listed improvements. */
  method CalculateDailyIncome(business: Business, improvements: seq<string>) returns (r: real)
    ensures r == DailyIncome(business.income, improvements)
  {
    var totalBoost := 1.0;
    var i := 0;
    while i < |improvements|
      invariant 0 <= i <= |improvements|
      invariant totalBoost == 1.0 + BoostSum(IncomeFigure, improvements[..i])
    {
      var imp := ImprovementOf(improvements[i]);
      if imp.Some? && imp.value.incomeBoost.Some? {
        totalBoost := totalBoost + imp.value.incomeBoost.value;
      }
      assert improvements[..i + 1][..i] == improvements[..i];
      i := i + 1;
    }
    assert improvements[..i] == improvements;
    r := business.income * totalBoost * DailyIncomeMultiplier;
  }

  /** `calculate_daily_expenses`: the for-loop over the listed improvements, then the salary. */
  method CalculateDailyExpenses(business: Business, improvements: seq<string>) returns (r: real)
    ensures r == DailyExpenses(business.expenses, improvements, business.staffSalary)
  {
    var totalBoost := 1.0;
    var i := 0;
    while i < |improvements|
      invariant 0 <= i <= |improvements|
      invariant totalBoost == 1.0 + BoostSum(ExpenseFigure, improvements[..i])
    {
      var imp := ImprovementOf(improvements[i]);
      if imp.Some? && imp.value.expenseBoost.Some? {
        totalBoost := totalBoost + imp.value.expenseBoost.value;
      }
      assert improvements[..i + 1][..i] == improvements[..i];
      i := i + 1;
    }
    assert improvements[..i] == improvements;
    var boosted := business.expenses * totalBoost * DailyExpenseMultiplier;
    var staffSalary := if business.staffSalary.Some? then business.staffSalary.value else 0.0;
    r := boosted + staffSalary;
  }

  lemma {:induction false} BoostSumNonNegative(f: Figure, ids: seq<string>)
    ensures BoostSum(f, ids) >= 0.0
  {
    if ids != [] {
      BoostSumNonNegative(f, ids[..|ids| - 1]);
    }
  }

  /** The boost sum of a concatenation is the sum of the boost sums. */
  lemma {:induction false} BoostSumConcat(f: Figure, a: seq<string>, b: seq<string>)
    ensures BoostSum(f, a + b) == BoostSum(f, a) + BoostSum(f, b)
  {
    if b == [] {
      assert a + b == a;
    } else {
      var b' := b[..|b| - 1];
      assert (a + b)[..|a + b| - 1] == a + b';
      assert (a + b)[|a + b| - 1] == b[|b| - 1];
      BoostSumConcat(f, a, b');
    }
  }

  /** The order in which improvements are listed does not matter. */
  lemma BoostSumOrderIndependent(f: Figure, a: seq<string>, b: seq<string>)
    ensures BoostSum(f, a + b) == BoostSum(f, b + a)
  {
    BoostSumConcat(f, a, b);
    BoostSumConcat(f, b, a);
  }

  /** An id the improvement table does not know is ignored wherever it is listed. */
  lemma UnknownImprovementIgnored(pre: seq<string>, x: string, post: seq<string>)
    requires ImprovementOf(x).None?
    ensures DailyIncome(0.0, pre + [x] + post) == DailyIncome(0.0, pre + post)
    ensures forall income :: DailyIncome(income, pre + [x] + post) == DailyIncome(income, pre + post)
    ensures forall expenses, salary :: DailyExpenses(expenses, pre + [x] + post, salary) == DailyExpenses(expenses, pre + post, salary)
  {
    forall f: Figure ensures BoostSum(f, pre + [x] + post) == BoostSum(f, pre + post) {
      BoostSumConcat(f, pre + [x], post);
      BoostSumConcat(f, pre, [x]);
      BoostSumConcat(f, pre, post);
      assert [x][..0] == [];
    }
  }

  /** A coffee shop (income 1000, expenses 500) with new equipment earns 120 a day, costs 25
      a day and nets 95. */
  lemma {:induction false} CoffeeShopWithEquipmentScenario()
    ensures DailyIncome(1000.0, ["equipment"]) == 120.0
    ensures DailyExpenses(500.0, ["equipment"], None) == 25.0
    ensures DailyIncome(1000.0, ["equipment"]) - DailyExpenses(500.0, ["equipment"], None) == 95.0
  {
    assert ["equipment"][..0] == [];
    assert BoostSum(IncomeFigure, ["equipment"]) == 0.2;
    assert BoostSum(ExpenseFigure, ["equipment"]) == 0.0;
  }

  // ---------------------------------------------------------------------------------------
  // Improvements
  // ---------------------------------------------------------------------------------------

  datatype ImprovementError = UnknownImprovement | AlreadyApplied

  /** What `apply_improvement` returns on success; the input business is not touched. */
  datatype Applied = Applied(newIncome: real, newExpenses: real, newImprovements: seq<string>, cost: real)

  /** `can_afford_improvement`. */
  function CanAffordImprovement(balance: real, id: string): (r: bool)
    ensures r <==> id in ImprovementIds && balance >= ImprovementOf(id).value.cost
  {
    match ImprovementOf(id)
    case Some(imp) => balance >= imp.cost
    case None => false
  }

  /** `apply_improvement`: unknown ids fail first, then ids already applied. */
  function ApplyImprovement(business: Business, id: string): (r: Result<Applied, ImprovementError>)
    ensures r == Failure(UnknownImprovement) <==> id !in ImprovementIds
    ensures r == Failure(AlreadyApplied) <==> id in ImprovementIds && id in business.improvements
    ensures r.Success? ==> r.value.newImprovements == business.improvements + [id]
    ensures r.Success? ==> r.value.cost == ImprovementOf(id).value.cost
    ensures r.Success? ==> r.value.newIncome == business.income * (1.0 + BoostOf(IncomeFigure, id))
    ensures r.Success? ==> r.value.newExpenses == business.expenses * (1.0 + BoostOf(ExpenseFigure, id))
  {
    match ImprovementOf(id)
    case None => Failure(UnknownImprovement)
    case Some(imp) =>
      if id in business.improvements then Failure(AlreadyApplied)
      else
        var newImprovements := business.improvements + [id];
        var newIncome := if imp.incomeBoost.Some? then business.income * (1.0 + imp.incomeBoost.value) else business.income;
        var newExpenses := if imp.expenseBoost.Some? then business.expenses * (1.0 + imp.expenseBoost.value) else business.expenses;
        Success(Applied(newIncome, newExpenses, newImprovements, imp.cost))
  }

  predicate Distinct(s: seq<string>)
  {
    forall i, j :: 0 <= i < j < |s| ==> s[i] != s[j]
  }

  /** Applying an improvement keeps the list free of duplicates and adds exactly that id. */
  lemma ApplyImprovementKeepsDistinct(business: Business, id: string)
    requires Distinct(business.improvements)
    requires ApplyImprovement(business, id).Success?
    ensures Distinct(ApplyImprovement(business, id).value.newImprovements)
    ensures multiset(ApplyImprovement(business, id).value.newImprovements) == multiset(business.improvements) + multiset{id}
  {
    var s := business.improvements;
    var t := s + [id];
    assert id !in s;
    forall i, j | 0 <= i < j < |t| ensures t[i] != t[j] {
      if j == |s| {
        assert t[i] == s[i];
      }
    }
  }

  /** Being able to afford an improvement not yet applied means applying it succeeds and its
      cost is covered by the balance. */
  lemma AffordableImprovementApplies(balance: real, business: Business, id: string)
    requires CanAffordImprovement(balance, id) && id !in business.improvements
    ensures ApplyImprovement(business, id).Success?
    ensures balance - ApplyImprovement(business, id).value.cost >= 0.0
  {
  }

  /** The stored income already carries the boost of a bought improvement, and the daily
      income multiplies the listed boosts in again: a bought income boost counts twice. */
  lemma {:induction false} AppliedImprovementCountsTwice(business: Business, id: string)
    requires ApplyImprovement(business, id).Success?
    ensures var a := ApplyImprovement(business, id).value;
      var beta := BoostOf(IncomeFigure, id);
      DailyIncome(a.newIncome, a.newImprovements)
        == business.income * (1.0 + beta) * (1.0 + BoostSum(IncomeFigure, business.improvements) + beta) * DailyIncomeMultiplier
  {
    var a := ApplyImprovement(business, id).value;
    var beta := BoostOf(IncomeFigure, id);
    var s := business.improvements + [id];
    assert s[..|s| - 1] == business.improvements;
    var sum := BoostSum(IncomeFigure, s);
    assert sum == BoostSum(IncomeFigure, business.improvements) + beta;
    assert a.newIncome == business.income * (1.0 + beta);
    assert a.newImprovements == s;
    ScaledTwice(business.income, beta, BoostSum(IncomeFigure, business.improvements), sum, DailyIncomeMultiplier);
  }

  /** Arithmetic step: a boosted income scaled by a sum that already holds the boost. */
  lemma ScaledTwice(income: real, beta: real, base: real, sum: real, m: real)
    requires sum == base + beta
    ensures (income * (1.0 + beta)) * (1.0 + sum) * m == income * (1.0 + beta) * (1.0 + base + beta) * m
  {
  }

  // ---------------------------------------------------------------------------------------
  // Levels
  // ---------------------------------------------------------------------------------------

  /** `calculate_level_up_experience`: a thousand points per current level. */
  function LevelUpExperience(level: int): (r: int)
    ensures r % 1000 == 0 && r / 1000 == level
    ensures level >= 1 ==> r >= 1000
  {
    level * 1000
  }

  /** `can_level_up`. */
  function CanLevelUp(experience: int, level: int): (r: bool)
    ensures r <==> experience >= level * 1000
  {
    experience >= LevelUpExperience(level)
  }

  /** Each level needs exactly a thousand points more than the one before. */
  lemma LevelThresholdsGrow(level: int)
    ensures LevelUpExperience(level + 1) == LevelUpExperience(level) + 1000
    ensures forall xp :: CanLevelUp(xp, level + 1) ==> CanLevelUp(xp, level)
  {
  }

  datatype LevelBonuses = LevelBonuses(incomeMultiplier: real, popularityBonus: real, balanceBonus: real)
  datatype LevelUp = LevelUp(newLevel: int, remainingExperience: int, bonuses: LevelBonuses)

  /** `level_up_player`: fails unless the player can level up. */
  function LevelUpPlayer(player: Player): (r: Option<LevelUp>)
    ensures r.Some? <==> player.experience >= player.level * 1000
    ensures r.Some? ==> r.value.newLevel == player.level + 1
    ensures r.Some? ==> r.value.remainingExperience >= 0
    ensures r.Some? ==> r.value.remainingExperience + player.level * 1000 == player.experience
    ensures r.Some? ==> r.value.bonuses.balanceBonus == (player.level + 1) as real * 1000.0
    ensures r.Some? ==> r.value.bonuses.popularityBonus == 0.1
  {
    if !CanLevelUp(player.experience, player.level) then None
    else
      var newLevel := player.level + 1;
      var remaining := player.experience - LevelUpExperience(player.level);
      Some(LevelUp(newLevel, remaining,
        LevelBonuses(1.0 + (newLevel - 1) as real * 0.05, 0.1, newLevel as real * 1000.0)))
  }

  // ---------------------------------------------------------------------------------------
  // Daily progress
  // ---------------------------------------------------------------------------------------

  datatype Progress = Progress(totalIncome: real, totalExpenses: real, netIncome: real, experienceGained: int)

  function IncomeOf(b: Business): real { DailyIncome(b.income, b.improvements) }
  function ExpensesOf(b: Business): real { DailyExpenses(b.expenses, b.improvements, b.staffSalary) }

  /** The experience one business yields: a tenth of its daily income, truncated. */
  function ExperienceOf(b: Business): int { Trunc(IncomeOf(b) * 0.1) }

  function IncomeTotal(bs: seq<Business>): real
  {
    if bs == [] then 0.0 else IncomeTotal(bs[..|bs| - 1]) + IncomeOf(bs[|bs| - 1])
  }

  function ExpenseTotal(bs: seq<Business>): real
  {
    if bs == [] then 0.0 else ExpenseTotal(bs[..|bs| - 1]) + ExpensesOf(bs[|bs| - 1])
  }

  function ExperienceTotal(bs: seq<Business>): int
  {
    if bs == [] then 0 else ExperienceTotal(bs[..|bs| - 1]) + ExperienceOf(bs[|bs| - 1])
  }

  /** What `calculate_daily_progress` computes. */
  function DailyProgress(bs: seq<Business>): Progress
  {
    Progress(IncomeTotal(bs), ExpenseTotal(bs), IncomeTotal(bs) - ExpenseTotal(bs), ExperienceTotal(bs))
  }

  /** `calculate_daily_progress`: one pass over the businesses, truncating the experience of
      each business separately. The player record is not consulted. */
  method CalculateDailyProgress(player: Player, businesses: seq<Business>) returns (p: Progress)
    ensures p == DailyProgress(businesses)
    ensures p.netIncome == p.totalIncome - p.totalExpenses
  {
    var totalIncome := 0.0;
    var totalExpenses := 0.0;
    var totalExperience := 0;
    var i := 0;
    while i < |businesses|
      invariant 0 <= i <= |businesses|
      invariant totalIncome == IncomeTotal(businesses[..i])
      invariant totalExpenses == ExpenseTotal(businesses[..i])
      invariant totalExperience == ExperienceTotal(businesses[..i])
    {
      var business := businesses[i];
      var dailyIncome := CalculateDailyIncome(business, business.improvements);
      var dailyExpenses := CalculateDailyExpenses(business, business.improvements);
      totalIncome := totalIncome + dailyIncome;
      totalExpenses := totalExpenses + dailyExpenses;
      totalExperience := totalExperience + Trunc(dailyIncome * 0.1);
      assert businesses[..i + 1][..i] == businesses[..i];
      i := i + 1;
    }
    assert businesses[..i] == businesses;
    p := Progress(totalIncome, totalExpenses, totalIncome - totalExpenses, totalExperience);
  }

  /** With non-negative daily incomes, truncating per business never yields more experience
      than truncating a tenth of the total would. */
  lemma {:induction false} ExperienceAtMostTenthOfTotal(bs: seq<Business>)
    requires forall b :: b in bs ==> IncomeOf(b) >= 0.0
    ensures 0 <= ExperienceTotal(bs)
    ensures ExperienceTotal(bs) as real <= IncomeTotal(bs) * 0.1
    ensures ExperienceTotal(bs) <= Trunc(IncomeTotal(bs) * 0.1)
  {
    if bs != [] {
      var front := bs[..|bs| - 1];
      assert forall b :: b in front ==> b in bs;
      ExperienceAtMostTenthOfTotal(front);
      var last := bs[|bs| - 1];
      assert last in bs;
    }
  }

  /** Two businesses earning 5 a day each yield no experience, although a tenth of their
      total income is 1: the truncation is per business. */
  lemma {:induction false} ExperienceTruncatedPerBusiness()
    ensures var b := Business(1, 7, "farm", "A", 50.0, 0.0, 1, [], None);
      var bs := [b, b.(id := 2)];
      ExperienceTotal(bs) == 0 && Trunc(IncomeTotal(bs) * 0.1) == 1
  {
    var b := Business(1, 7, "farm", "A", 50.0, 0.0, 1, [], None);
    var bs := [b, b.(id := 2)];
    assert bs[..1][..0] == [];
    assert bs[..|bs| - 1] == [b];
    assert IncomeTotal([b]) == IncomeOf(b);
    assert ExperienceTotal([b]) == ExperienceOf(b);
    assert IncomeOf(b) == 5.0;
    assert IncomeOf(b.(id := 2)) == 5.0;
    assert ExperienceOf(b) == 0;
    assert ExperienceOf(b.(id := 2)) == 0;
    assert IncomeTotal(bs) == 10.0;
  }

  // ---------------------------------------------------------------------------------------
  // Achievements
  // ---------------------------------------------------------------------------------------

  datatype Achievement = Achievement(kind: string, title: string, description: string)

  const Millionaire := Achievement("balance", "Миллионер", "Достиг баланса в 1,000,000 ₽")
  const HundredThousand := Achievement("balance", "Сотня тысяч", "Достиг баланса в 100,000 ₽")
  const Magnate := Achievement("businesses", "Бизнес-магнат", "Владеете 5+ бизнесами")
  const Empire := Achievement("businesses", "Империя", "Владеете 10+ бизнесами")
  const Expert := Achievement("level", "Эксперт", "Достигли 10 уровня")

  /** The fixed order in which achievements are listed. */
  const AchievementTable: seq<Achievement> := [Millionaire, HundredThousand, Magnate, Empire, Expert]

  function AchievementRank(a: Achievement): int
  {
    if a == Millionaire then 0 else if a == HundredThousand then 1 else if a == Magnate then 2
    else if a == Empire then 3 else if a == Expert then 4 else 5
  }

  /** The balance and business-count checks of `check_achievements`, in source order. */
  function BalanceAndBusinessAchievements(player: Player, businesses: seq<Business>): seq<Achievement>
  {
    (if player.balance >= 1000000.0 && player.level >= 5 then [Millionaire] else [])
    + (if player.balance >= 100000.0 then [HundredThousand] else [])
    + (if |businesses| >= 5 then [Magnate] else [])
    + (if |businesses| >= 10 then [Empire] else [])
  }

  /** `check_achievements`: every satisfied entry, in table order, whether or not it was
      recorded before. */
  function CheckAchievements(player: Player, businesses: seq<Business>): (r: seq<Achievement>)
    ensures Millionaire in r <==> player.balance >= 1000000.0 && player.level >= 5
    ensures HundredThousand in r <==> player.balance >= 100000.0
    ensures Magnate in r <==> |businesses| >= 5
    ensures Empire in r <==> |businesses| >= 10
    ensures Expert in r <==> player.level >= 10
    ensures forall a :: a in r ==> a in AchievementTable
  {
    BalanceAndBusinessAchievements(player, businesses) + (if player.level >= 10 then [Expert] else [])
  }

  /** Listed in strictly increasing table order, hence each entry at most once. */
  predicate RankSorted(r: seq<Achievement>)
  {
    forall i, j | 0 <= i < j < |r| :: AchievementRank(r[i]) < AchievementRank(r[j])
  }

  /** One `if ...: achievements.append(a)` step keeps the list in table order when `a` comes
      after everything listed so far. */
  lemma AppendInOrder(acc: seq<Achievement>, cond: bool, a: Achievement, k: int)
    requires RankSorted(acc) && (forall x | x in acc :: AchievementRank(x) < AchievementRank(a))
    requires AchievementRank(a) < k
    ensures var r := acc + (if cond then [a] else []);
      RankSorted(r) && forall x | x in r :: AchievementRank(x) < k
  {
  }

  /** Each table entry's position in the table. */
  lemma TableRanks()
    ensures forall i | 0 <= i < |AchievementTable| :: AchievementRank(AchievementTable[i]) == i
    ensures AchievementRank(Millionaire) == 0 && AchievementRank(HundredThousand) == 1
    ensures AchievementRank(Magnate) == 2 && AchievementRank(Empire) == 3 && AchievementRank(Expert) == 4
  {
    assert AchievementRank(Millionaire) == 0 && AchievementRank(HundredThousand) == 1;
    assert AchievementRank(Magnate) == 2 && AchievementRank(Empire) == 3 && AchievementRank(Expert) == 4;
  }

  /** The first four checks list their entries in table order, all ranked below `Expert`. */
  lemma BalanceAndBusinessInOrder(player: Player, businesses: seq<Business>)
    ensures RankSorted(BalanceAndBusinessAchievements(player, businesses))
    ensures forall x | x in BalanceAndBusinessAchievements(player, businesses) :: AchievementRank(x) < 4
  {
    TableRanks();
    var r1 := [] + (if player.balance >= 1000000.0 && player.level >= 5 then [Millionaire] else []);
    AppendInOrder([], player.balance >= 1000000.0 && player.level >= 5, Millionaire, 1);
    var r2 := r1 + (if player.balance >= 100000.0 then [HundredThousand] else []);
    AppendInOrder(r1, player.balance >= 100000.0, HundredThousand, 2);
    var r3 := r2 + (if |businesses| >= 5 then [Magnate] else []);
    AppendInOrder(r2, |businesses| >= 5, Magnate, 3);
    AppendInOrder(r3, |businesses| >= 10, Empire, 4);
    assert r1 == (if player.balance >= 1000000.0 && player.level >= 5 then [Millionaire] else []);
  }

  /** The satisfied entries are listed in table order, each at most once, so recording them
      adds exactly one row per satisfied entry. */
  lemma CheckAchievementsInTableOrder(player: Player, businesses: seq<Business>)
    ensures var r := CheckAchievements(player, businesses);
      forall i, j | 0 <= i < j < |r| :: AchievementRank(r[i]) < AchievementRank(r[j])
  {
    BalanceAndBusinessInOrder(player, businesses);
    TableRanks();
    AppendInOrder(BalanceAndBusinessAchievements(player, businesses), player.level >= 10, Expert, 5);
  }

  /** A richer, higher-level player with at least as many businesses earns every achievement
      a poorer one earns. */
  lemma AchievementsMonotone(p: Player, bs: seq<Business>, q: Player, cs: seq<Business>)
    requires p.balance <= q.balance && p.level <= q.level && |bs| <= |cs|
    ensures forall a :: a in CheckAchievements(p, bs) ==> a in CheckAchievements(q, cs)
  {
  }

  // ---------------------------------------------------------------------------------------
  // Random events, business value, competition
  // ---------------------------------------------------------------------------------------

  datatype EventEffect = EventEffect(incomeChange: real, expenseChange: real, popularityChange: real)

  /** `apply_random_event` with the drawn event passed in. */
  function ApplyRandomEvent(business: Business, event: Event): (r: EventEffect)
    ensures event.kind == "positive" ==>
      r == EventEffect(event.incomeBonus.GetOr(0.0), 0.0, event.popularityBonus.GetOr(0.0))
    ensures event.kind == "negative" ==>
      && r.expenseChange == -event.expensePenalty.GetOr(0.0)
      && r.popularityChange == event.popularityPenalty.GetOr(0.0)
      && r.incomeChange == (if event.incomeMultiplier.Some? then business.income * (event.incomeMultiplier.value - 1.0) else 0.0)
    ensures event.kind != "positive" && event.kind != "negative" ==> r == EventEffect(0.0, 0.0, 0.0)
  {
    if event.kind == "positive" then
      var income := if event.incomeBonus.Some? then event.incomeBonus.value else 0.0;
      var popularity := if event.popularityBonus.Some? then event.popularityBonus.value else 0.0;
      EventEffect(income, 0.0, popularity)
    else if event.kind == "negative" then
      var expense := if event.expensePenalty.Some? then -event.expensePenalty.value else 0.0;
      var popularity := if event.popularityPenalty.Some? then event.popularityPenalty.value else 0.0;
      var income := if event.incomeMultiplier.Some? then business.income * (event.incomeMultiplier.value - 1.0) else 0.0;
      EventEffect(income, expense, popularity)
    else
      EventEffect(0.0, 0.0, 0.0)
  }

  /** Every event of the table helps when positive and hurts when negative, for a business
      whose income is not negative. */
  lemma TableEventsHaveTheirSign(business: Business, i: nat)
    requires i < |RandomEvents| && business.income >= 0.0
    ensures var e := ApplyRandomEvent(business, RandomEvents[i]);
      if RandomEvents[i].kind == "positive"
      then e.incomeChange > 0.0 && e.expenseChange == 0.0 && e.popularityChange > 0.0
      else e.incomeChange <= 0.0 && e.expenseChange <= 0.0 && e.popularityChange <= 0.0
  {
  }

  /** `calculate_business_value`: thirty days of income with level and improvement bonuses. */
  function BusinessValue(b: Business): (r: real)
    ensures b.income >= 0.0 && b.level >= 1 ==> r >= b.income * 30.0
    ensures b.level == 1 && b.improvements == [] ==> r == b.income * 30.0
  {
    b.income * 30.0 * (1.0 + (b.level - 1) as real * 0.1) * (1.0 + |b.improvements| as real * 0.05)
  }

  /** Each improvement adds 5% of the value without improvements. */
  lemma {:induction false} BusinessValueGrowsWithImprovements(b: Business, id: string)
    requires b.income >= 0.0 && b.level >= 1
    ensures BusinessValue(b.(improvements := b.improvements + [id])) >= BusinessValue(b)
    ensures BusinessValue(b.(improvements := b.improvements + [id])) - BusinessValue(b)
      == b.income * 30.0 * (1.0 + (b.level - 1) as real * 0.1) * 0.05
  {
    var base := b.income * 30.0 * (1.0 + (b.level - 1) as real * 0.1);
    var n := |b.improvements| as real;
    assert |b.improvements + [id]| as real == n + 1.0;
    assert base >= 0.0;
    calc {
      BusinessValue(b.(improvements := b.improvements + [id])) - BusinessValue(b);
      base * (1.0 + (n + 1.0) * 0.05) - base * (1.0 + n * 0.05);
      base * 0.05;
    }
  }

  /** `calculate_competition_bonus`. */
  function CompetitionBonus(playerPopularity: real, competitorPopularity: real): (r: real)
    ensures r > 1.0 <==> playerPopularity > competitorPopularity
    ensures r == 1.0 <==> playerPopularity == competitorPopularity
    ensures r < 1.0 <==> playerPopularity < competitorPopularity
  {
    if playerPopularity > competitorPopularity then 1.0 + (playerPopularity - competitorPopularity) * 0.1
    else if playerPopularity < competitorPopularity then 1.0 - (competitorPopularity - playerPopularity) * 0.05
    else 1.0
  }

  /** The more popular side gains twice what the less popular side loses. */
  lemma CompetitionGainIsTwiceTheLoss(p: real, c: real)
    requires p > c
    ensures CompetitionBonus(p, c) - 1.0 == 2.0 * (1.0 - CompetitionBonus(c, p))
  {
  }
}
