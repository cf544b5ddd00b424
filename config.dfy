/** The numeric game parameters and the business-type, random-event and improvement tables. */
module Config {
  import opened Wrappers

  const StartingBalance: real := 10000.0
  /** Share of a business's income that is paid out per day. */
  const DailyIncomeMultiplier: real := 0.1
  /** Share of a business's expenses that is charged per day. */
  const DailyExpenseMultiplier: real := 0.05

  datatype RiskLevel = Low | Medium | High | VeryHigh

  datatype BusinessType = BusinessType(
    name: string,
    baseIncome: real,
    baseExpenses: real,
    growthRate: real,
    risk: RiskLevel)

  /** `BUSINESS_TYPES.get(key)`: the five purchasable business types. */
  function BusinessTypeOf(key: string): (r: Option<BusinessType>)
    ensures r.Some? ==> r.value.baseIncome > r.value.baseExpenses > 0.0 && r.value.growthRate >= 1.0
  {
    if key == "coffee_shop" then Some(BusinessType("Кофейня", 1000.0, 500.0, 1.2, Low))
    else if key == "restaurant" then Some(BusinessType("Ресторан", 2000.0, 1200.0, 1.3, Medium))
    else if key == "factory" then Some(BusinessType("Фабрика", 5000.0, 3000.0, 1.5, High))
    else if key == "it_startup" then Some(BusinessType("IT-стартап", 3000.0, 800.0, 2.0, VeryHigh))
    else if key == "farm" then Some(BusinessType("Ферма", 800.0, 300.0, 1.1, Low))
    else None
  }

  /** A random event; every optional effect key of the table is an `Option`. */
  datatype Event = Event(
    kind: string,
    title: string,
    incomeBonus: Option<real>,
    popularityBonus: Option<real>,
    expensePenalty: Option<real>,
    popularityPenalty: Option<real>,
    incomeMultiplier: Option<real>,
    duration: Option<int>)

  const RandomEvents: seq<Event> := [
    Event("positive", "Блогер посетил ваш бизнес!", Some(3000.0), Some(0.2), None, None, None, None),
    Event("positive", "Выгодный контракт!", Some(5000.0), Some(0.1), None, None, None, None),
    Event("negative", "Поломка оборудования", None, None, Some(2000.0), Some(-0.1), None, None),
    Event("negative", "Кризис спроса", None, None, None, None, Some(0.8), Some(3))
  ]

  /** An improvement; a boost the table does not define is `None`. */
  datatype Improvement = Improvement(
    name: string,
    cost: real,
    incomeBoost: Option<real>,
    expenseBoost: Option<real>,
    popularityBoost: Option<real>)

  /** The improvement ids in the table's order. */
  const ImprovementIds: seq<string> := ["equipment", "staff", "advertising", "branch"]

  /** `IMPROVEMENTS.get(id)`. */
  function ImprovementOf(id: string): (r: Option<Improvement>)
    ensures r.Some? <==> id in ImprovementIds
    ensures r.Some? ==> r.value.cost > 0.0
    ensures r.Some? ==> r.value.incomeBoost.GetOr(0.0) >= 0.0 && r.value.expenseBoost.GetOr(0.0) >= 0.0
  {
    if id == "equipment" then Some(Improvement("Новое оборудование", 5000.0, Some(0.2), None, None))
    else if id == "staff" then Some(Improvement("Нанять сотрудника", 3000.0, Some(0.15), Some(0.1), None))
    else if id == "advertising" then Some(Improvement("Рекламная кампания", 2000.0, None, None, Some(0.3)))
    else if id == "branch" then Some(Improvement("Открыть филиал", 10000.0, Some(0.5), Some(0.3), None))
    else None
  }
}
