/** Credit scoring and loans, PvP power and duel outcome, business synergy and valuation. */
module AdvancedFeatures {
  import opened Wrappers
  import opened Config
  import opened Records
  import GameLogic

  // ---------------------------------------------------------------------------------------
  // Read-only rate tables
  // ---------------------------------------------------------------------------------------

  /** `investment_returns`: the expected daily return of each strategy. */
  function InvestmentReturn(strategy: string): (r: Option<real>)
    ensures r.Some? ==> 0.0 < r.value < 1.0
  {
    if strategy == "conservative" then Some(0.08)
    else if strategy == "balanced" then Some(0.12)
    else if strategy == "aggressive" then Some(0.18)
    else None
  }

  /** `pvp_rewards`. */
  const WinReward: real := 0.1
  const LossReward: real := -0.05
  const DrawReward: real := 0.02

  // ---------------------------------------------------------------------------------------
  // Credit score, interest tiers, eligibility, issuance
  // ---------------------------------------------------------------------------------------

  /** The score before the floor at 100 is applied. */
  function RawCreditScore(player: Player): int
  {
    300 + player.level * 50
    + (if player.experience / 1000 <= 200 then player.experience / 1000 else 200)
    + Trunc(player.popularity * 100.0)
    - (if player.totalExpenses > player.totalIncome then 100 else 0)
  }

  /** `_calculate_credit_score`: experience is floor-divided by 1000 and capped at 200, the
      popularity term is truncated, spending more than earning costs 100, and the result is
      never below 100. */
  function CreditScore(player: Player): (r: int)
    ensures r >= 100
    ensures r == RawCreditScore(player) || (r == 100 && RawCreditScore(player) < 100)
  {
    var score := 300;
    var score := score + player.level * 50;
    var score := score + (if player.experience / 1000 <= 200 then player.experience / 1000 else 200);
    var score := score + Trunc(player.popularity * 100.0);
    var score := if player.totalExpenses > player.totalIncome then score - 100 else score;
    MaxInt(score, 100)
  }

  /** A player of level 3 with 2500 experience, popularity 1.2 and no excess spending scores
      572 and borrows at 4% a day. */
  lemma CreditScoreScenario(player: Player)
    requires player.level == 3 && player.experience == 2500 && player.popularity == 1.2
    requires player.totalExpenses <= player.totalIncome
    ensures CreditScore(player) == 572
    ensures InterestRate(CreditScore(player)) == 0.04
  {
    assert player.experience / 1000 == 2;
    assert Trunc(player.popularity * 100.0) == 120;
  }

  /** A higher level never lowers the score, and excess spending costs at most 100 points. */
  lemma CreditScoreMonotone(player: Player, level: int, totalExpenses: real)
    requires level >= player.level
    ensures CreditScore(player.(level := level)) >= CreditScore(player)
    ensures CreditScore(player) - CreditScore(player.(totalExpenses := totalExpenses)) <= 100
  {
  }

  /** `_get_interest_rate`: the daily rate for a credit score. */
  function InterestRate(creditScore: int): (r: real)
    ensures 0.02 <= r <= 0.05
    ensures creditScore >= 500 ==> r <= 0.04
  {
    if creditScore >= 800 then 0.02
    else if creditScore >= 600 then 0.03
    else if creditScore >= 400 then 0.04
    else 0.05
  }

  /** A better score never costs a higher rate. */
  lemma InterestRateNonIncreasing(s1: int, s2: int)
    requires s1 <= s2
    ensures InterestRate(s2) <= InterestRate(s1)
  {
  }

  datatype Eligibility =
    | AmountTooLarge(maxAmount: real)
    | LowCreditScore(creditScore: int)
    | Eligible(creditScore: int, maxAmount: real, interestRate: real)

  /** `calculate_loan_eligibility`: the amount cap (twice the balance) is checked first, then
      the score threshold 500. */
  function LoanEligibility(player: Player, amount: real): (r: Eligibility)
    ensures r.AmountTooLarge? <==> amount > 2.0 * player.balance
    ensures r.AmountTooLarge? ==> r.maxAmount == 2.0 * player.balance
    ensures r.LowCreditScore? <==> amount <= 2.0 * player.balance && CreditScore(player) < 500
    ensures r.Eligible? ==> r.creditScore == CreditScore(player) >= 500 && r.maxAmount == 2.0 * player.balance
    ensures r.Eligible? ==> r.interestRate == InterestRate(r.creditScore) && r.interestRate != 0.05
  {
    var creditScore := CreditScore(player);
    var maxLoan := player.balance * 2.0;
    if amount > maxLoan then AmountTooLarge(maxLoan)
    else if creditScore < 500 then LowCreditScore(creditScore)
    else Eligible(creditScore, maxLoan, InterestRate(creditScore))
  }

  datatype LoanInfo = LoanInfo(
    amount: real,
    interestRate: real,
    termDays: int,
    totalInterest: real,
    totalPayment: real,
    issuedAt: int,
    dueDate: int)

  const SecondsPerDay: int := 86400

  /** `process_loan` issued at time `now`: fails with the eligibility verdict unless eligible. */
  function ProcessLoan(player: Player, amount: real, termDays: int, now: int): (r: Result<LoanInfo, Eligibility>)
    ensures r.Success? <==> LoanEligibility(player, amount).Eligible?
    ensures r.Failure? ==> r.error == LoanEligibility(player, amount)
    ensures r.Success? ==> r.value.interestRate == LoanEligibility(player, amount).interestRate
    ensures r.Success? ==> r.value.amount == amount && r.value.termDays == termDays
    ensures r.Success? ==> r.value.totalInterest == amount * r.value.interestRate * termDays as real
    ensures r.Success? ==> r.value.totalPayment == amount + r.value.totalInterest
    ensures r.Success? ==> r.value.totalPayment == amount * (1.0 + r.value.interestRate * termDays as real)
    ensures r.Success? ==> r.value.dueDate - r.value.issuedAt == termDays * SecondsPerDay && r.value.issuedAt == now
  {
    var eligibility := LoanEligibility(player, amount);
    if !eligibility.Eligible? then Failure(eligibility)
    else
      var rate := eligibility.interestRate;
      var totalInterest := amount * rate * termDays as real;
      Success(LoanInfo(amount, rate, termDays, totalInterest, amount + totalInterest, now, now + termDays * SecondsPerDay))
  }

  /** An approved loan costs between 2% and 4% of the amount per day of the term. */
  lemma LoanCostBounds(player: Player, amount: real, termDays: int, now: int)
    requires amount >= 0.0 && termDays >= 0
    requires ProcessLoan(player, amount, termDays, now).Success?
    ensures var info := ProcessLoan(player, amount, termDays, now).value;
      amount * 0.02 * termDays as real <= info.totalInterest <= amount * 0.04 * termDays as real
  {
    var info := ProcessLoan(player, amount, termDays, now).value;
    var t := termDays as real;
    assert amount * t >= 0.0;
    assert info.totalInterest == info.interestRate * (amount * t);
  }

  // ---------------------------------------------------------------------------------------
  // PvP
  // ---------------------------------------------------------------------------------------

  /** `_calculate_player_power`: level, experience, popularity and a balance term capped at 1000. */
  function PlayerPower(player: Player): (r: real)
    ensures var rest := player.level as real * 100.0 + player.experience as real * 0.1 + player.popularity * 500.0;
      && r <= rest + 1000.0
      && (player.balance >= 0.0 ==> r >= rest)
      && (player.balance >= 1000000.0 ==> r == rest + 1000.0)
  {
    var power := 0.0;
    var power := power + player.level as real * 100.0;
    var power := power + player.experience as real * 0.1;
    var power := power + player.popularity * 500.0;
    power + Min(player.balance / 1000.0, 1000.0)
  }

  /** The balance never contributes more than 1000, so a richer player gains at most 1000 power. */
  lemma BalancePowerCapped(player: Player, balance: real)
    requires balance >= player.balance
    ensures PlayerPower(player) <= player.level as real * 100.0 + player.experience as real * 0.1 + player.popularity * 500.0 + 1000.0
    ensures PlayerPower(player) <= PlayerPower(player.(balance := balance))
    ensures player.balance >= 0.0 ==> PlayerPower(player.(balance := balance)) - PlayerPower(player) <= 1000.0
  {
  }

  /** The four random draws of a duel: two uniform multipliers in [0.85, 1.15] and two
      Gaussian luck terms (unbounded). */
  datatype PvpDraws = PvpDraws(rand1: real, rand2: real, luck1: real, luck2: real)

  predicate ValidDraws(d: PvpDraws)
  {
    0.85 <= d.rand1 <= 1.15 && 0.85 <= d.rand2 <= 1.15
  }

  /** The same draws with the two sides exchanged. */
  function Swapped(d: PvpDraws): PvpDraws { PvpDraws(d.rand2, d.rand1, d.luck2, d.luck1) }

  function Mirror(o: Outcome): Outcome
  {
    match o
    case Win => Loss
    case Loss => Win
    case Draw => Draw
  }

  function Abs(x: real): real { if x >= 0.0 then x else -x }

  /** The outcome of two final powers: a draw within 2% of the larger (at least 1), otherwise
      the stronger side wins. */
  function Classify(f1: real, f2: real): (o: Outcome)
    ensures o == Draw <==> Abs(f1 - f2) <= 0.02 * Max(Max(f1, f2), 1.0)
    ensures o == Win <==> o != Draw && f1 > f2
  {
    var closeThreshold := 0.02 * Max(Max(f1, f2), 1.0);
    if Abs(f1 - f2) <= closeThreshold then Draw
    else if f1 > f2 then Win
    else Loss
  }

  datatype PvpResult = PvpResult(
    outcome: Outcome,
    player1Power: real,
    player2Power: real,
    finalPower1: real,
    finalPower2: real,
    reward: real,
    penalty: real,
    betAmount: real)

  /** `calculate_pvp_outcome` with the draws passed in. */
  function PvpOutcome(player1: Player, player2: Player, bet: real, d: PvpDraws): (r: PvpResult)
    requires ValidDraws(d)
    ensures r.player1Power == PlayerPower(player1) && r.player2Power == PlayerPower(player2)
    ensures r.finalPower1 == PlayerPower(player1) * d.rand1 * (1.0 + d.luck1)
    ensures r.finalPower2 == PlayerPower(player2) * d.rand2 * (1.0 + d.luck2)
    ensures r.outcome == Classify(r.finalPower1, r.finalPower2)
    ensures r.outcome == Win ==> r.reward == bet * 0.1 && r.penalty == -bet * 0.05
    ensures r.outcome == Loss ==> r.reward == bet * 0.05 && r.penalty == -bet * 0.1
    ensures r.outcome == Draw ==> r.reward == bet * 0.02 && r.penalty == 0.0
  {
    var p1 := PlayerPower(player1);
    var p2 := PlayerPower(player2);
    var f1 := p1 * d.rand1 * (1.0 + d.luck1);
    var f2 := p2 * d.rand2 * (1.0 + d.luck2);
    var outcome := Classify(f1, f2);
    var reward := match outcome
      case Win => bet * WinReward
      case Loss => -bet * LossReward
      case Draw => bet * DrawReward;
    var penalty := match outcome
      case Win => -bet * 0.05
      case Loss => -bet * 0.1
      case Draw => 0.0;
    PvpResult(outcome, p1, p2, f1, f2, reward, penalty, bet)
  }

  /** Exchanging the two final powers exchanges win and loss and keeps a draw. */
  lemma ClassifyMirror(f1: real, f2: real)
    ensures Classify(f2, f1) == Mirror(Classify(f1, f2))
  {
    assert Max(Max(f2, f1), 1.0) == Max(Max(f1, f2), 1.0);
    assert Abs(f2 - f1) == Abs(f1 - f2);
  }

  /** Exchanging the players together with their draws exchanges win and loss and keeps a draw. */
  lemma PvpOutcomeSwapSymmetric(player1: Player, player2: Player, bet: real, d: PvpDraws)
    requires ValidDraws(d)
    ensures ValidDraws(Swapped(d))
    ensures PvpOutcome(player2, player1, bet, Swapped(d)).outcome == Mirror(PvpOutcome(player1, player2, bet, d).outcome)
  {
    var r := PvpOutcome(player1, player2, bet, d);
    var s := PvpOutcome(player2, player1, bet, Swapped(d));
    assert s.finalPower1 == r.finalPower2 && s.finalPower2 == r.finalPower1;
    ClassifyMirror(r.finalPower1, r.finalPower2);
  }

  /** A win needs a margin: the loser's final power is below 98% of the winner's and at
      least 0.02 lower. */
  lemma WinNeedsMargin(f1: real, f2: real)
    requires Classify(f1, f2) == Win
    ensures f2 < 0.98 * f1 && f1 - f2 > 0.02
  {
  }

  // ---------------------------------------------------------------------------------------
  // Business synergy
  // ---------------------------------------------------------------------------------------

  /** Python's string order: code point by code point, a proper prefix first. */
  predicate LexLe(a: string, b: string)
    decreases |a|
  {
    if a == [] then true
    else if b == [] then false
    else if a[0] < b[0] then true
    else if a[0] > b[0] then false
    else LexLe(a[1..], b[1..])
  }

  lemma {:induction false} LexLeAntisymmetric(a: string, b: string)
    requires LexLe(a, b) && LexLe(b, a)
    ensures a == b
    decreases |a|
  {
    if a != [] && b != [] {
      LexLeAntisymmetric(a[1..], b[1..]);
      assert a == [a[0]] + a[1..];
      assert b == [b[0]] + b[1..];
    }
  }

  lemma {:induction false} LexLeTotal(a: string, b: string)
    ensures LexLe(a, b) || LexLe(b, a)
    decreases |a|
  {
    if a != [] && b != [] && a[0] == b[0] {
      LexLeTotal(a[1..], b[1..]);
    }
  }

  /** `tuple(sorted([a, b]))`. */
  function SortedPair(a: string, b: string): (string, string)
  {
    if LexLe(a, b) then (a, b) else (b, a)
  }

  /** Sorting makes the pair independent of the argument order. */
  lemma SortedPairSymmetric(a: string, b: string)
    ensures SortedPair(a, b) == SortedPair(b, a)
  {
    LexLeTotal(a, b);
    if LexLe(a, b) && LexLe(b, a) {
      LexLeAntisymmetric(a, b);
    }
  }

  datatype Synergy = Synergy(name: string, bonus: real, description: string)

  /** The synergy table, keyed by sorted pairs of business types. */
  function SynergyOf(pair: (string, string)): (r: Option<Synergy>)
    ensures r.Some? ==> 0.0 < r.value.bonus < 1.0
  {
    if pair == ("coffee_shop", "restaurant") then Some(Synergy("Ресторанный кластер", 0.15, "Кофейня и ресторан дополняют друг друга"))
    else if pair == ("farm", "restaurant") then Some(Synergy("Ферма-ресторан", 0.20, "Свежие продукты для ресторана"))
    else if pair == ("factory", "it_startup") then Some(Synergy("Технологическая синергия", 0.25, "IT-решения для производства"))
    else if pair == ("coffee_shop", "farm") then Some(Synergy("Кофейная ферма", 0.18, "Выращивание кофе для кофейни"))
    else None
  }

  datatype SynergyResult = NoSynergy | HasSynergy(info: Synergy, incomeBonus: real, expenseReduction: real)

  /** `calculate_business_synergy`. */
  function BusinessSynergy(business1: Business, business2: Business): (r: SynergyResult)
    ensures r.HasSynergy? <==> SynergyOf(SortedPair(business1.businessType, business2.businessType)).Some?
    ensures r.HasSynergy? ==> r.info == SynergyOf(SortedPair(business1.businessType, business2.businessType)).value
    ensures r.HasSynergy? ==> r.incomeBonus == r.info.bonus && r.expenseReduction == r.info.bonus * 0.5
    ensures r.HasSynergy? ==> 0.0 < r.expenseReduction < r.incomeBonus
  {
    match SynergyOf(SortedPair(business1.businessType, business2.businessType))
    case Some(synergy) => HasSynergy(synergy, synergy.bonus, synergy.bonus * 0.5)
    case None => NoSynergy
  }

  /** Synergy does not depend on the order of the two businesses. */
  lemma BusinessSynergySymmetric(business1: Business, business2: Business)
    ensures BusinessSynergy(business1, business2) == BusinessSynergy(business2, business1)
  {
    SortedPairSymmetric(business1.businessType, business2.businessType);
  }

  /** A coffee shop next to a restaurant, in either order, earns 15% more and spends 7.5% less. */
  lemma CoffeeShopRestaurantSynergy(business1: Business, business2: Business)
    requires {business1.businessType, business2.businessType} == {"coffee_shop", "restaurant"}
    ensures BusinessSynergy(business1, business2).HasSynergy?
    ensures BusinessSynergy(business1, business2).incomeBonus == 0.15
    ensures BusinessSynergy(business1, business2).expenseReduction == 0.075
  {
    assert LexLe("coffee_shop", "restaurant");
    assert !LexLe("restaurant", "coffee_shop");
    if business1.businessType == "coffee_shop" {
      assert business2.businessType == "restaurant";
    } else {
      assert business1.businessType == "restaurant" && business2.businessType == "coffee_shop";
    }
  }

  // ---------------------------------------------------------------------------------------
  // Investment potential
  // ---------------------------------------------------------------------------------------

  function RiskMultiplier(risk: RiskLevel): real
  {
    match risk
    case Low => 0.8
    case Medium => 1.0
    case High => 1.3
    case VeryHigh => 1.6
  }

  datatype Potential = Potential(
    expectedReturn: real,
    risk: RiskLevel,
    growthPotential: real,
    improvementBonus: real,
    recommendedInvestment: real)

  /** `calculate_investment_potential`: growth rate x improvement bonus x 15% x risk multiplier;
      an unknown type counts as growth 1.0 and medium risk. */
  function InvestmentPotential(business: Business, amount: real): (r: Potential)
    ensures r.expectedReturn > 0.0
    ensures r.growthPotential
      == (if BusinessTypeOf(business.businessType).Some? then BusinessTypeOf(business.businessType).value.growthRate else 1.0)
    ensures r.risk == (if BusinessTypeOf(business.businessType).Some? then BusinessTypeOf(business.businessType).value.risk else Medium)
    ensures r.improvementBonus == 1.0 + |business.improvements| as real * 0.1
    ensures r.recommendedInvestment == Min(amount, business.income * 5.0)
    ensures r.expectedReturn == r.growthPotential * r.improvementBonus * 0.15 * RiskMultiplier(r.risk)
  {
    var info := BusinessTypeOf(business.businessType);
    var growth := if info.Some? then info.value.growthRate else 1.0;
    var improvementBonus := if business.improvements != [] then 1.0 + |business.improvements| as real * 0.1 else 1.0;
    var expected := growth * improvementBonus * 0.15;
    var risk := if info.Some? then info.value.risk else Medium;
    Potential(expected * RiskMultiplier(risk), risk, growth, improvementBonus, Min(amount, business.income * 5.0))
  }

  /** Another improvement never lowers the expected return. */
  lemma {:induction false} InvestmentPotentialGrowsWithImprovements(business: Business, id: string, amount: real)
    ensures InvestmentPotential(business.(improvements := business.improvements + [id]), amount).expectedReturn
      > InvestmentPotential(business, amount).expectedReturn
  {
    var b' := business.(improvements := business.improvements + [id]);
    var p := InvestmentPotential(business, amount);
    var q := InvestmentPotential(b', amount);
    assert p.growthPotential == q.growthPotential && p.risk == q.risk;
    var k := p.growthPotential * 0.15 * RiskMultiplier(p.risk);
    assert k > 0.0;
    assert p.expectedReturn == k * p.improvementBonus;
    assert q.expectedReturn == k * q.improvementBonus;
    assert q.improvementBonus == p.improvementBonus + 0.1;
  }

  // ---------------------------------------------------------------------------------------
  // Empire value
  // ---------------------------------------------------------------------------------------

  /** How many of `others` (other than `b` itself, by id) have a synergy with `b`. */
  function SynergyCount(b: Business, others: seq<Business>): nat
  {
    if others == [] then 0
    else
      var other := others[|others| - 1];
      SynergyCount(b, others[..|others| - 1]) + (if other.id != b.id && BusinessSynergy(b, other).HasSynergy? then 1 else 0)
  }

  function SynergyBonus(b: Business, all: seq<Business>): real
  {
    1.0 + 0.05 * SynergyCount(b, all) as real
  }

  datatype BusinessValueEntry = BusinessValueEntry(businessId: int, name: string, value: real, synergyBonus: real)

  function EntryOf(b: Business, all: seq<Business>): BusinessValueEntry
  {
    BusinessValueEntry(b.id, b.name, GameLogic.BusinessValue(b) * SynergyBonus(b, all), SynergyBonus(b, all))
  }

  function Entries(bs: seq<Business>, all: seq<Business>): (r: seq<BusinessValueEntry>)
    ensures |r| == |bs|
  {
    if bs == [] then [] else Entries(bs[..|bs| - 1], all) + [EntryOf(bs[|bs| - 1], all)]
  }

  function ValueSum(bs: seq<Business>, all: seq<Business>): real
  {
    if bs == [] then 0.0 else ValueSum(bs[..|bs| - 1], all) + EntryOf(bs[|bs| - 1], all).value
  }

  datatype EmpireReport = EmpireReport(
    totalValue: real,
    businessValues: seq<BusinessValueEntry>,
    empireBonus: real,
    playerBonus: real,
    empireSize: int)

  /** What `calculate_empire_value` computes. */
  function EmpireValue(player: Player, businesses: seq<Business>): EmpireReport
  {
    var empireBonus := 1.0 + (|businesses| - 1) as real * 0.05;
    var playerBonus := 1.0 + (player.level - 1) as real * 0.02;
    EmpireReport(ValueSum(businesses, businesses) * empireBonus * playerBonus,
      Entries(businesses, businesses), empireBonus, playerBonus, |businesses|)
  }

  /** The inner loop of `calculate_empire_value`: 5% per other business with a synergy. */
  method CountSynergyBonus(business: Business, businesses: seq<Business>) returns (synergyBonus: real)
    ensures synergyBonus == SynergyBonus(business, businesses)
  {
    synergyBonus := 1.0;
    var j := 0;
    while j < |businesses|
      invariant 0 <= j <= |businesses|
      invariant synergyBonus == 1.0 + 0.05 * SynergyCount(business, businesses[..j]) as real
    {
      var other := businesses[j];
      if other.id != business.id {
        var synergy := BusinessSynergy(business, other);
        if synergy.HasSynergy? {
          synergyBonus := synergyBonus + 0.05;
        }
      }
      assert businesses[..j + 1][..j] == businesses[..j];
      j := j + 1;
    }
    assert businesses[..j] == businesses;
  }

  /** `calculate_empire_value`: the nested loops over every pair of businesses. */
  method CalculateEmpireValue(player: Player, businesses: seq<Business>) returns (r: EmpireReport)
    ensures r == EmpireValue(player, businesses)
  {
    var totalValue := 0.0;
    var businessValues: seq<BusinessValueEntry> := [];
    var i := 0;
    while i < |businesses|
      invariant 0 <= i <= |businesses|
      invariant totalValue == ValueSum(businesses[..i], businesses)
      invariant businessValues == Entries(businesses[..i], businesses)
    {
      var business := businesses[i];
      var baseValue := business.income * 30.0;
      var levelBonus := 1.0 + (business.level - 1) as real * 0.1;
      var improvementsBonus := 1.0 + |business.improvements| as real * 0.05;
      var synergyBonus := CountSynergyBonus(business, businesses);
      var businessValue := baseValue * levelBonus * improvementsBonus * synergyBonus;
      assert businessValue == EntryOf(business, businesses).value;
      businessValues := businessValues + [BusinessValueEntry(business.id, business.name, businessValue, synergyBonus)];
      totalValue := totalValue + businessValue;
      assert businesses[..i + 1][..i] == businesses[..i];
      i := i + 1;
    }
    assert businesses[..i] == businesses;
    var empireBonus := 1.0 + (|businesses| - 1) as real * 0.05;
    var playerBonus := 1.0 + (player.level - 1) as real * 0.02;
    r := EmpireReport(totalValue * empireBonus * playerBonus, businessValues, empireBonus, playerBonus, |businesses|);
  }

  /** A lone business of a level-1 player is worth what `calculate_business_value` says. */
  lemma {:induction false} LoneBusinessEmpire(player: Player, b: Business)
    requires player.level == 1
    ensures EmpireValue(player, [b]).totalValue == GameLogic.BusinessValue(b)
  {
    assert [b][..0] == [];
    assert SynergyCount(b, [b]) == 0;
    assert ValueSum([b], [b]) == EntryOf(b, [b]).value;
  }

  /** Two businesses with a synergy raise each other's value by the same 5%. */
  lemma {:induction false} SynergyIsMutual(a: Business, b: Business)
    requires a.id != b.id
    ensures SynergyBonus(a, [a, b]) == SynergyBonus(b, [a, b])
    ensures BusinessSynergy(a, b).HasSynergy? ==> SynergyBonus(a, [a, b]) == 1.05
  {
    BusinessSynergySymmetric(a, b);
    var s := [a, b];
    assert s[..1] == [a];
    assert [a][..0] == [];
    assert SynergyCount(a, [a]) == 0;
    assert SynergyCount(b, [a]) == (if BusinessSynergy(b, a).HasSynergy? then 1 else 0);
  }
}
