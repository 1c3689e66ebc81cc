/** The C++ game's money ledger: class Economy of src/Economy.cpp, with its
    constants from include/Economy.h. Doubles and the float accumulator are
    exact reals. */
module EconomySystem {

  const StartingMoney: real := 100000.0
  const StationBuildCost: real := 5000.0
  const StationMaintenance: real := 100.0
  const LineBuildCostPerKm: real := 1000.0
  const LineMaintenancePerKm: real := 10.0
  const TicketPricePerKm: real := 0.5
  /** One simulated month, in seconds. */
  const MonthSeconds: real := 30.0

  class Economy {
    var money: real
    var monthlyIncome: real
    var monthlyExpenses: real
    var timeAccumulator: real
    /** Everything earned and everything paid since construction. */
    ghost var earned: real
    ghost var spent: real

    /** No method ever raises the monthly expenses, and the accumulator is
        reset as soon as it reaches a month. */
    ghost predicate Valid()
      reads this
    {
      monthlyExpenses == 0.0 && timeAccumulator < MonthSeconds
    }

    /** The money is the starting money plus what was earned minus what was paid. */
    ghost predicate Balanced()
      reads this
    {
      money == StartingMoney + earned - spent
    }

    constructor ()
      ensures Valid() && Balanced()
      ensures money == StartingMoney && monthlyIncome == 0.0 && monthlyExpenses == 0.0 && timeAccumulator == 0.0
    {
      earned, spent := 0.0, 0.0;
      money := StartingMoney;
      monthlyIncome := 0.0;
      monthlyExpenses := 0.0;
      timeAccumulator := 0.0;
    }

    /** Pays when the money covers the amount, and refuses otherwise. */
    method SpendMoney(amount: real) returns (paid: bool)
      requires Valid()
      modifies this
      ensures Valid()
      ensures paid <==> old(money) >= amount
      ensures amount == StationBuildCost ==> (paid <==> old(CanBuildStation()))
      ensures money == if paid then old(money) - amount else old(money)
      ensures monthlyIncome == old(monthlyIncome) && monthlyExpenses == old(monthlyExpenses)
      ensures timeAccumulator == old(timeAccumulator)
      ensures old(Balanced()) ==> Balanced()
    {
      if money >= amount {
        money := money - amount;
        spent := spent + amount;
        return true;
      }
      return false;
    }

    /** Credits the money at once and records it as this month's income. */
    method EarnMoney(amount: real)
      requires Valid()
      modifies this
      ensures Valid()
      ensures money == old(money) + amount && monthlyIncome == old(monthlyIncome) + amount
      ensures monthlyExpenses == old(monthlyExpenses) && timeAccumulator == old(timeAccumulator)
      ensures old(Balanced()) ==> Balanced()
    {
      earned := earned + amount;
      money := money + amount;
      monthlyIncome := monthlyIncome + amount;
    }

    /** Advances the clock; once a month has passed, the month's income and
        expenses are settled into the money and the counters reset. */
    method Update(deltaTime: real)
      requires Valid()
      modifies this
      ensures Valid()
      ensures old(timeAccumulator) + deltaTime < MonthSeconds ==>
                timeAccumulator == old(timeAccumulator) + deltaTime
                && money == old(money) && monthlyIncome == old(monthlyIncome) && monthlyExpenses == old(monthlyExpenses)
      ensures old(timeAccumulator) + deltaTime >= MonthSeconds ==>
                money == old(money) - old(monthlyExpenses) + old(monthlyIncome)
                && monthlyIncome == 0.0 && monthlyExpenses == 0.0 && timeAccumulator == 0.0
      ensures old(Balanced()) && old(timeAccumulator) + deltaTime >= MonthSeconds ==>
                money == StartingMoney + earned - spent + old(monthlyIncome)
    {
      timeAccumulator := timeAccumulator + deltaTime;
      if timeAccumulator >= MonthSeconds {
        money := money - monthlyExpenses;
        money := money + monthlyIncome;
        monthlyIncome := 0.0;
        monthlyExpenses := 0.0;
        timeAccumulator := 0.0;
      }
    }

    /** The settlement as evidently intended: income was already credited by
        EarnMoney, so only the expenses are charged. */
    method UpdateCorrected(deltaTime: real)
      requires Valid()
      modifies this
      ensures Valid()
      ensures old(timeAccumulator) + deltaTime < MonthSeconds ==>
                timeAccumulator == old(timeAccumulator) + deltaTime
                && money == old(money) && monthlyIncome == old(monthlyIncome) && monthlyExpenses == old(monthlyExpenses)
      ensures old(timeAccumulator) + deltaTime >= MonthSeconds ==>
                money == old(money) - old(monthlyExpenses)
                && monthlyIncome == 0.0 && monthlyExpenses == 0.0 && timeAccumulator == 0.0
      ensures old(Balanced()) ==> Balanced()
    {
      timeAccumulator := timeAccumulator + deltaTime;
      if timeAccumulator >= MonthSeconds {
        money := money - monthlyExpenses;
        monthlyIncome := 0.0;
        monthlyExpenses := 0.0;
        timeAccumulator := 0.0;
      }
    }

    /** Whether a station is affordable: SpendMoney(StationBuildCost) pays exactly then. */
    predicate CanBuildStation()
      reads this
    {
      money >= StationBuildCost
    }

    function GetNetIncome(): (net: real)
      reads this
      ensures Valid() ==> net == monthlyIncome
    {
      monthlyIncome - monthlyExpenses
    }
  }

  /** calculateTicketRevenue: passengers × distance × 0.5. */
  function TicketRevenue(passengers: int, distance: real): (r: real)
    ensures passengers >= 0 && distance >= 0.0 ==> r >= 0.0
    ensures r * 2.0 == passengers as real * distance
  {
    passengers as real * distance * TicketPricePerKm
  }

  /** Revenue is linear in the passengers carried. */
  lemma TicketRevenueAdds(p1: int, p2: int, distance: real)
    ensures TicketRevenue(p1 + p2, distance) == TicketRevenue(p1, distance) + TicketRevenue(p2, distance)
  {
    assert (p1 + p2) as real * distance == p1 as real * distance + p2 as real * distance;
  }

  /** What the money should be after a run of earnings and payments that
      starts from a fresh ledger. */
  function Expected(earned: real, spent: real): real
  {
    StartingMoney + earned - spent
  }

  /** A fresh ledger earns 100 and lets a month pass: as written the 100 is
      credited twice, so the money ends at 100,200 rather than 100,100. */
  method EarnThenSettleAsWritten() returns (money: real)
    ensures money == Expected(100.0, 0.0) + 100.0
  {
    var e := new Economy();
    e.EarnMoney(100.0);
    e.Update(30.0);
    money := e.money;
  }

  /** The same run against the corrected settlement ends at the expected sum. */
  method EarnThenSettleCorrected() returns (money: real)
    ensures money == Expected(100.0, 0.0)
  {
    var e := new Economy();
    e.EarnMoney(100.0);
    e.UpdateCorrected(30.0);
    money := e.money;
  }

  /** The first station of a fresh ledger is affordable, and it leaves 95,000. */
  method FirstStationScenario() returns (money: real)
    ensures money == 95000.0
  {
    var e := new Economy();
    assert e.CanBuildStation();
    var paid := e.SpendMoney(StationBuildCost);
    assert paid;
    money := e.money;
  }
}
