/** The rows of the game's store (one datatype per table) and the shared PvP outcome. */
module Records {
  import opened Wrappers

  /** A row of `players`. Times are whole seconds. */
  datatype Player = Player(
    username: string,
    firstName: string,
    balance: real,
    totalIncome: real,
    totalExpenses: real,
    popularity: real,
    level: int,
    experience: int,
    lastActive: int)

  /** A row of `businesses`. `staffSalary` is an optional key of the business record that the
      economy formulas read; the `businesses` table has no such column, so stored rows carry
      `None`. */
  datatype Business = Business(
    id: int,
    ownerId: int,
    businessType: string,
    name: string,
    income: real,
    expenses: real,
    level: int,
    improvements: seq<string>,
    staffSalary: Option<real>)

  /** A row of `transactions`, the append-only audit log. */
  datatype Transaction = Transaction(
    userId: int,
    businessId: Option<int>,
    kind: string,
    amount: real,
    description: string,
    timestamp: int)

  /** A row of `achievements`. */
  datatype AchievementRow = AchievementRow(
    userId: int,
    kind: string,
    title: string,
    description: string,
    earnedAt: int)

  datatype LoanStatus = LoanActive | LoanClosed

  /** A row of `loans`. */
  datatype Loan = Loan(
    userId: int,
    amount: real,
    interestRate: real,
    termDays: int,
    issuedAt: int,
    dueDate: int,
    remaining: real,
    status: LoanStatus)

  datatype InvestmentStatus = Active | Matured | Claimed | Withdrawn

  /** A row of `investments`. */
  datatype Investment = Investment(
    userId: int,
    businessId: Option<int>,
    strategy: string,
    amount: real,
    expectedReturn: real,
    createdAt: int,
    maturesAt: int,
    status: InvestmentStatus,
    currentValue: real,
    volatility: real,
    lastPriceUpdate: int)

  datatype ProductionStatus = InProgress | Collected

  /** A row of `productions`. */
  datatype Production = Production(
    businessId: int,
    prodType: string,
    name: string,
    version: int,
    status: ProductionStatus,
    startedAt: int,
    readyAt: int,
    quantity: real)

  /** A row of `pvp_profiles` (without its key). */
  datatype PvpProfile = PvpProfile(
    rating: real,
    wins: int,
    losses: int,
    streak: int,
    lastFightAt: Option<int>,
    cooldownUntil: Option<int>)

  /** The outcome of a duel, seen from the first player (the challenger). */
  datatype Outcome = Win | Loss | Draw

  /** A row of `pvp_matches`. */
  datatype PvpMatch = PvpMatch(
    challengerId: int,
    opponentId: int,
    winnerId: Option<int>,
    loserId: Option<int>,
    bet: real,
    challengerPower: real,
    opponentPower: real,
    outcome: Outcome,
    createdAt: int)

  function Max(a: real, b: real): real { if a >= b then a else b }
  function Min(a: real, b: real): real { if a <= b then a else b }
  function MaxInt(a: int, b: int): int { if a >= b then a else b }

  /** Python's `int(x)` on a float: truncation toward zero. */
  function Trunc(x: real): (r: int)
    ensures x >= 0.0 ==> r as real <= x < r as real + 1.0
    ensures x < 0.0 ==> r as real - 1.0 < x <= r as real
  {
    if x >= 0.0 then x.Floor else -((-x).Floor)
  }
}
