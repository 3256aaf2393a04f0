// Figures the dashboard derives from a statement: the income-statement totals,
// the financial ratios and health score, the ratio bars' colours, the balance
// sheet's net worth and ring percentage, the cash-flow statement's net, and the
// alerts panel. web/src/components/FinancialDashboard.jsx and
// archive/FinancialDashboard.jsx compute these with the same expressions.

module Ratios {
  import opened Js
  import opened Statements
  import Seqs
  import Substring

  function IncomeAmount(i: IncomeItem): real { i.amount }
  function ExpenseAmount(e: ExpenseItem): real { e.amount }
  function AssetBalance(a: Asset): real { a.balance }
  function LiabilityBalance(l: Liability): real { l.balance }

  function TotalIncome(st: Statement): real { Seqs.Sum(st.income, IncomeAmount) }

  function TotalExpenses(st: Statement): real
  {
    Seqs.Sum(st.fixed, ExpenseAmount) + Seqs.Sum(st.variable, ExpenseAmount) + Seqs.Sum(st.subscriptions, ExpenseAmount)
  }

  function TotalAssets(st: Statement): real { Seqs.Sum(st.assets, AssetBalance) }

  function TotalLiabilities(st: Statement): real { Seqs.Sum(st.liabilities, LiabilityBalance) }

  function NetIncome(st: Statement): real { TotalIncome(st) - TotalExpenses(st) }

  // ------------------------------------------------------------------
  // Ratios and the health score
  // ------------------------------------------------------------------

  /** `(netIncome / totalIncome) * 100`, unguarded: no income gives an infinity or NaN. */
  function SavingsRate(st: Statement): (r: Num)
    ensures r.Fin? <==> TotalIncome(st) != 0.0
    ensures r.Fin? ==> r.v * TotalIncome(st) == NetIncome(st) * 100.0
  {
    Scale(Div(NetIncome(st), TotalIncome(st)), 100.0)
  }

  /** `(totalExpenses / totalIncome) * 100`, unguarded like the savings rate. */
  function ExpenseRatio(st: Statement): (r: Num)
    ensures r.Fin? <==> TotalIncome(st) != 0.0
    ensures r.Fin? ==> r.v * TotalIncome(st) == TotalExpenses(st) * 100.0
  {
    Scale(Div(TotalExpenses(st), TotalIncome(st)), 100.0)
  }

  /** Savings rate and expense ratio add up to 100 whenever income is non-zero. */
  lemma SavingsAndExpenseRatioComplement(st: Statement)
    requires TotalIncome(st) != 0.0
    ensures SavingsRate(st).v + ExpenseRatio(st).v == 100.0
  {
    PercentagesOfWhole(SavingsRate(st).v, ExpenseRatio(st).v, NetIncome(st), TotalExpenses(st), TotalIncome(st));
  }

  /** Two percentages of the same non-zero whole whose parts make up the whole add to 100. */
  lemma PercentagesOfWhole(p: real, q: real, a: real, b: real, w: real)
    requires w != 0.0 && a + b == w
    requires p * w == a * 100.0 && q * w == b * 100.0
    ensures p + q == 100.0
  {
    assert (p + q) * w == (a + b) * 100.0;
    assert (p + q - 100.0) * w == 0.0;
  }

  /** `totalLiabilities > 0 ? (totalLiabilities / totalAssets) * 100 : 0`. */
  function DebtToAsset(st: Statement): (r: Num)
    ensures TotalLiabilities(st) <= 0.0 ==> r == Fin(0.0)
    ensures TotalLiabilities(st) > 0.0 && TotalAssets(st) != 0.0 ==> r.Fin? && r.v * TotalAssets(st) == TotalLiabilities(st) * 100.0
    ensures TotalLiabilities(st) > 0.0 && TotalAssets(st) == 0.0 ==> r == PosInf
  {
    if TotalLiabilities(st) > 0.0 then Scale(Div(TotalLiabilities(st), TotalAssets(st)), 100.0) else Fin(0.0)
  }

  predicate IsLiquid(a: Asset) { a.kind == "Cash" || a.kind == "Savings" }

  /** Balances of the Cash and Savings assets. */
  function LiquidAssets(st: Statement): real { Seqs.Sum(Seqs.Filter(st.assets, IsLiquid), AssetBalance) }

  /** `liquid / (totalExpenses || 1)`: always a finite number. */
  function Liquidity(st: Statement): (r: real)
    ensures TotalExpenses(st) != 0.0 ==> r * TotalExpenses(st) == LiquidAssets(st)
    ensures TotalExpenses(st) == 0.0 ==> r == LiquidAssets(st)
  {
    LiquidAssets(st) / OrOne(TotalExpenses(st))
  }

  /** `Math.min(100, Math.round(sr*2 + (100-er)*0.5 + (100-dta)*0.3))`: capped
      at 100 above (an infinite sum is capped too), with no lower clamp. */
  function HealthScore(st: Statement): (r: Num)
    ensures r != PosInf
    ensures r.Fin? ==> r.v <= 100.0
  {
    MinWith(100.0, Round(Add(Add(Scale(SavingsRate(st), 2.0),
                                 Scale(SubFrom(100.0, ExpenseRatio(st)), 0.5)),
                             Scale(SubFrom(100.0, DebtToAsset(st)), 0.3))))
  }

  /** A statement with one income item of 1 and one fixed expense of e. */
  function OneIncomeOneExpense(e: real): Statement
  {
    Statement([IncomeItem("Salary", 1.0, "Income", 0.0)], [ExpenseItem("Rent", e, false, Undefined)],
              [], [], [], [], EmptyCashFlow)
  }

  /** The score has no lower bound: for every m some statement scores below m. */
  lemma HealthScoreUnboundedBelow(m: real)
    ensures exists e: real :: HealthScore(OneIncomeOneExpense(e)).Fin? && HealthScore(OneIncomeOneExpense(e)).v < m
  {
    var e := (300.0 + (if m < 0.0 then -m else m)) / 250.0;
    var st := OneIncomeOneExpense(e);
    assert [IncomeItem("Salary", 1.0, "Income", 0.0)][..0] == [];
    assert [ExpenseItem("Rent", e, false, Undefined)][..0] == [];
    assert TotalIncome(st) == 1.0;
    assert TotalExpenses(st) == e;
    assert TotalLiabilities(st) == 0.0;
    assert SavingsRate(st) == Fin((1.0 - e) * 100.0);
    assert ExpenseRatio(st) == Fin(e * 100.0);
    var sum := (1.0 - e) * 100.0 * 2.0 + (100.0 - e * 100.0) * 0.5 + 100.0 * 0.3;
    assert sum == 280.0 - 250.0 * e;
    assert HealthScore(st).v <= sum + 0.5;
  }

  /** With neither income nor expenses both rates are 0/0, and the score is NaN. */
  lemma EmptyStatementScoresNaN(st: Statement)
    requires TotalIncome(st) == 0.0 && TotalExpenses(st) == 0.0
    ensures SavingsRate(st) == NaN && ExpenseRatio(st) == NaN && HealthScore(st) == NaN
  {
  }

  // ------------------------------------------------------------------
  // Ratio bars
  // ------------------------------------------------------------------

  datatype Color = Green | Amber | Red

  function Rank(c: Color): nat
  {
    match c
    case Green => 0
    case Amber => 1
    case Red => 2
  }

  /** `RatioBar`'s colour: red above the danger threshold, else amber above the
      warning threshold, else green (NaN is green). */
  function RatioColor(value: Num, warning: real, danger: real): Color
  {
    if Greater(value, danger) then Red
    else if Greater(value, warning) then Amber
    else Green
  }

  /** With warning <= danger the colour only gets worse as the value grows. */
  lemma RatioColorMonotone(a: real, b: real, warning: real, danger: real)
    requires warning <= danger && a <= b
    ensures Rank(RatioColor(Fin(a), warning, danger)) <= Rank(RatioColor(Fin(b), warning, danger))
    ensures RatioColor(Fin(a), warning, danger) == Red <==> a > danger
    ensures RatioColor(Fin(a), warning, danger) == Amber <==> warning < a <= danger
  {
  }

  /** `Math.min(percentage, 100)` with the bars' default max of 100, where the
      percentage `(value / 100) * 100` is the value itself. */
  function BarWidth(value: Num): (r: Num)
    ensures r != PosInf
    ensures r.Fin? ==> r.v <= 100.0
    ensures value.Fin? && value.v <= 100.0 ==> r == value
  {
    MinWith(100.0, value)
  }

  /** The savings-rate bar as written: thresholds {warning: 10, danger: 5} with
      the bar's "higher is worse" comparison. */
  function SavingsRateColorAsWritten(st: Statement): Color
  {
    RatioColor(SavingsRate(st), 10.0, 5.0)
  }

  /** As written, a savings rate of 20% (the target the alert text names)
      shows red, although the alerts panel raises no low-savings alert for it. */
  lemma HealthySavingsRateShownRed()
    ensures var st := OneIncomeOneExpense(0.8);
      && SavingsRate(st) == Fin(20.0) && SavingsRateColorAsWritten(st) == Red && !LowSavings(st)
      && Bars(st).savings == Red && CorrectedBars(st).savings == Green
  {
    var st := OneIncomeOneExpense(0.8);
    assert [IncomeItem("Salary", 1.0, "Income", 0.0)][..0] == [];
    assert [ExpenseItem("Rent", 0.8, false, Undefined)][..0] == [];
    assert TotalIncome(st) == 1.0 && TotalExpenses(st) == 0.8;
  }

  /** The colour of a "higher is better" ratio: red below the danger threshold,
      amber below the warning threshold, green otherwise (NaN is green). */
  function RatioColorHigherIsBetter(value: Num, warning: real, danger: real): Color
  {
    if Less(value, danger) then Red
    else if Less(value, warning) then Amber
    else Green
  }

  /** The savings-rate bar with the comparison its thresholds call for. */
  function SavingsRateColor(st: Statement): Color
  {
    RatioColorHigherIsBetter(SavingsRate(st), 10.0, 5.0)
  }

  /** The corrected bar agrees with the alerts panel: it leaves green exactly
      when the low-savings alert fires, and is red only below 5%. */
  lemma SavingsRateColorMatchesAlert(st: Statement)
    ensures SavingsRateColor(st) != Green <==> LowSavings(st)
    ensures SavingsRateColor(st) == Red <==> Less(SavingsRate(st), 5.0)
  {
  }

  /** The three bars of the ratios panel and their widths. */
  datatype RatioBars = RatioBars(savings: Color, expense: Color, debt: Color,
                                 savingsWidth: Num, expenseWidth: Num, debtWidth: Num)

  /** The ratios panel as written: every bar uses RatioBar's "higher is worse"
      colouring, so with the savings thresholds {warning: 10, danger: 5} the
      savings bar is red above 5% and can never be amber. */
  function Bars(st: Statement): (r: RatioBars)
    ensures r.savings == Red <==> Greater(SavingsRate(st), 5.0)
    ensures r.savings != Amber
    ensures r.expense == Red <==> Greater(ExpenseRatio(st), 95.0)
    ensures r.expense == Amber <==> !Greater(ExpenseRatio(st), 95.0) && Greater(ExpenseRatio(st), 80.0)
    ensures r.debt == Red <==> Greater(DebtToAsset(st), 50.0)
    ensures r.debt == Green <==> !Greater(DebtToAsset(st), 30.0)
    ensures r.savingsWidth == BarWidth(SavingsRate(st))
    ensures r.expenseWidth == BarWidth(ExpenseRatio(st))
    ensures r.debtWidth == BarWidth(DebtToAsset(st))
  {
    RatioBars(SavingsRateColorAsWritten(st), RatioColor(ExpenseRatio(st), 80.0, 95.0), RatioColor(DebtToAsset(st), 30.0, 50.0),
              BarWidth(SavingsRate(st)), BarWidth(ExpenseRatio(st)), BarWidth(DebtToAsset(st)))
  }

  /** The panel with the savings bar coloured as its thresholds intend; the
      other bars and every width are those of the panel as written. */
  function CorrectedBars(st: Statement): (r: RatioBars)
    ensures r.savings != Green <==> LowSavings(st)
    ensures r.savings == Red <==> Less(SavingsRate(st), 5.0)
    ensures r.expense == Bars(st).expense && r.debt == Bars(st).debt
    ensures r.savingsWidth == Bars(st).savingsWidth && r.expenseWidth == Bars(st).expenseWidth
    ensures r.debtWidth == Bars(st).debtWidth
  {
    SavingsRateColorMatchesAlert(st);
    Bars(st).(savings := SavingsRateColor(st))
  }

  // ------------------------------------------------------------------
  // Balance sheet and cash-flow statement
  // ------------------------------------------------------------------

  function NetWorth(st: Statement): real { TotalAssets(st) - TotalLiabilities(st) }

  /** The ring's label: `(totalAssets / (totalAssets + totalLiabilities || 1)) * 100`. */
  function RingPercentage(st: Statement): (r: real)
    ensures TotalAssets(st) + TotalLiabilities(st) == 0.0 ==> r == TotalAssets(st) * 100.0
  {
    TotalAssets(st) / OrOne(TotalAssets(st) + TotalLiabilities(st)) * 100.0
  }

  /** For non-negative totals the ring shows a percentage between 0 and 100. */
  lemma RingPercentageBounded(st: Statement)
    requires TotalAssets(st) >= 0.0 && TotalLiabilities(st) >= 0.0
    ensures 0.0 <= RingPercentage(st) <= 100.0
  {
    var a := TotalAssets(st);
    var d := OrOne(a + TotalLiabilities(st));
    if a + TotalLiabilities(st) != 0.0 {
      FractionAtMostOne(a, d);
    }
  }

  /** A non-negative part of a positive whole is a fraction in [0, 1]. */
  lemma FractionAtMostOne(a: real, d: real)
    requires 0.0 <= a <= d && d > 0.0
    ensures 0.0 <= a / d <= 1.0
  {
    var q := a / d;
    assert q * d == a;
    assert (1.0 - q) * d == d - a >= 0.0;
  }

  /** The transformed statement has no liabilities, so its net worth is its assets. */
  lemma TransformedNetWorth(nodes: seq<Records.Node>, flows: seq<Records.Flow>)
    ensures NetWorth(StatementOf(nodes, flows)) == TotalAssets(StatementOf(nodes, flows))
    ensures DebtToAsset(StatementOf(nodes, flows)) == Fin(0.0)
  {
  }

  /** A section's net cash flow: inflows minus outflows. */
  function SectionNet(s: Section): real { s.inflowTotal - s.outflowTotal }

  /** `netCF = operatingCF + investingCF + financingCF`. */
  function NetCashFlow(cf: CashFlow): real
  {
    SectionNet(cf.operating) + SectionNet(cf.investing) + SectionNet(cf.financing)
  }

  /** A flow's signed contribution: + from an income node, - otherwise, 0 when
      an endpoint is missing. */
  function SignedAmount(nodes: seq<Records.Node>): Records.Flow -> real
  {
    (f: Records.Flow) =>
      var from := Records.Find(nodes, f.from);
      if from.Some? && Records.Find(nodes, f.to).Some? then
        (if from.value.kind == Records.Income then f.amount else -f.amount)
      else 0.0
  }

  /** The net cash flow of the transformed statement is what the income nodes
      send out minus every other booked flow. */
  lemma {:induction false} NetCashFlowIsSignedSum(flows: seq<Records.Flow>, nodes: seq<Records.Node>)
    ensures NetCashFlow(CashFlowOf(flows, nodes)) == Seqs.Sum(flows, SignedAmount(nodes))
  {
    if flows != [] {
      var init := flows[..|flows| - 1];
      var f := flows[|flows| - 1];
      NetCashFlowIsSignedSum(init, nodes);
      StepFlowNet(CashFlowOf(init, nodes), f, nodes);
      assert CashFlowOf(flows, nodes) == StepFlow(CashFlowOf(init, nodes), f, nodes);
      assert Seqs.Sum(flows, SignedAmount(nodes)) == Seqs.Sum(init, SignedAmount(nodes)) + SignedAmount(nodes)(f);
    }
  }

  /** Booking one flow moves the net cash flow by its signed amount. */
  lemma StepFlowNet(cf: CashFlow, f: Records.Flow, nodes: seq<Records.Node>)
    ensures NetCashFlow(StepFlow(cf, f, nodes)) == NetCashFlow(cf) + SignedAmount(nodes)(f)
  {
  }

  // ------------------------------------------------------------------
  // Alerts
  // ------------------------------------------------------------------

  datatype Alert =
    | CancelSubscriptions(names: seq<string>, savings: real)
    | LowSavingsRate(rate: Num)
    | EmergencyFundProgress(progress: Num, goal: JsVal)

  predicate FlaggedCancel(e: ExpenseItem) { e.cancel }

  function ItemName(e: ExpenseItem): string { e.name }

  /** The subscriptions flagged for cancellation. */
  function CancelSubs(st: Statement): seq<ExpenseItem> { Seqs.Filter(st.subscriptions, FlaggedCancel) }

  /** `savingsRate < 10` (false for NaN). */
  predicate LowSavings(st: Statement) { Less(SavingsRate(st), 10.0) }

  function LowerChar(c: char): char
  {
    if 'A' <= c <= 'Z' then (c as int + 32) as char else c
  }

  /** `toLowerCase` on ASCII letters. */
  function Lower(s: string): (r: string)
    ensures |r| == |s|
    ensures forall i :: 0 <= i < |s| ==> r[i] == LowerChar(s[i])
  {
    if s == [] then [] else [LowerChar(s[0])] + Lower(s[1..])
  }

  predicate IsEmergencyFund(a: Asset) { Substring.Occurs(Lower(a.name), "emergency") }

  /** `assets.find(a => a.name.toLowerCase().includes('emergency'))`. */
  function FindEmergencyFund(assets: seq<Asset>): (r: Js.Option<Asset>)
    ensures r.Some? ==> r.value in assets && IsEmergencyFund(r.value)
    ensures r.None? <==> forall a :: a in assets ==> !IsEmergencyFund(a)
    ensures r.Some? && !IsEmergencyFund(assets[0]) ==> r == FindEmergencyFund(assets[1..])
  {
    if assets == [] then None
    else if IsEmergencyFund(assets[0]) then Some(assets[0])
    else FindEmergencyFund(assets[1..])
  }

  /** `(fund.balance / fund.goal) * 100` with JavaScript's coercion of the goal. */
  function Progress(a: Asset): Num { Scale(DivBy(a.balance, ToNumber(a.goal)), 100.0) }

  /** The alerts panel, in the order the alerts are pushed. */
  function Alerts(st: Statement): seq<Alert>
  {
    var cancel := CancelSubs(st);
    var fund := FindEmergencyFund(st.assets);
    (if |cancel| > 0 then [CancelSubscriptions(Seqs.Map(cancel, ItemName), Seqs.Sum(cancel, ExpenseAmount))] else [])
    + (if LowSavings(st) then [LowSavingsRate(SavingsRate(st))] else [])
    + (if fund.Some? && Truthy(fund.value.goal) && Less(Progress(fund.value), 100.0)
       then [EmergencyFundProgress(Progress(fund.value), fund.value.goal)] else [])
  }

  /** A warning appears iff some subscription is flagged cancel; it names the
      flagged subscriptions and its savings are their summed amounts. */
  lemma CancelAlertIff(st: Statement)
    ensures (exists a :: a in Alerts(st) && a.CancelSubscriptions?) <==> exists e :: e in st.subscriptions && e.cancel
    ensures forall a :: a in Alerts(st) && a.CancelSubscriptions? ==>
      a.savings == Seqs.Sum(CancelSubs(st), ExpenseAmount) && |a.names| == |CancelSubs(st)|
  {
    var cancel := CancelSubs(st);
    var fund := FindEmergencyFund(st.assets);
    var head := if |cancel| > 0 then [CancelSubscriptions(Seqs.Map(cancel, ItemName), Seqs.Sum(cancel, ExpenseAmount))] else [];
    var tail := (if LowSavings(st) then [LowSavingsRate(SavingsRate(st))] else [])
      + (if fund.Some? && Truthy(fund.value.goal) && Less(Progress(fund.value), 100.0)
         then [EmergencyFundProgress(Progress(fund.value), fund.value.goal)] else []);
    assert Alerts(st) == head + tail;
    assert forall a :: a in tail ==> !a.CancelSubscriptions?;
    CancelSubsNonEmpty(st);
    if |cancel| > 0 {
      assert head[0] in Alerts(st);
    }
  }

  /** Some subscription is flagged cancel iff the filtered list is non-empty. */
  lemma CancelSubsNonEmpty(st: Statement)
    ensures |CancelSubs(st)| > 0 <==> exists e :: e in st.subscriptions && e.cancel
  {
    var cancel := CancelSubs(st);
    if |cancel| > 0 {
      assert cancel[0] in cancel;
    }
    if exists e :: e in st.subscriptions && e.cancel {
      var e :| e in st.subscriptions && e.cancel;
      assert e in cancel;
    }
  }

  /** A danger alert appears iff the savings rate is below 10. */
  lemma LowSavingsAlertIff(st: Statement)
    ensures (exists a :: a in Alerts(st) && a.LowSavingsRate?) <==> Less(SavingsRate(st), 10.0)
  {
    var k := if |CancelSubs(st)| > 0 then 1 else 0;
    if LowSavings(st) {
      assert Alerts(st)[k].LowSavingsRate?;
    }
  }

  /** An info alert appears iff the first asset whose lower-cased name contains
      "emergency" has a truthy goal and its progress is below 100%. */
  lemma EmergencyAlertIff(st: Statement)
    ensures (exists a :: a in Alerts(st) && a.EmergencyFundProgress?) <==>
      var fund := FindEmergencyFund(st.assets);
      fund.Some? && Truthy(fund.value.goal) && Less(Progress(fund.value), 100.0)
  {
    var fund := FindEmergencyFund(st.assets);
    if fund.Some? && Truthy(fund.value.goal) && Less(Progress(fund.value), 100.0) {
      assert Alerts(st)[|Alerts(st)| - 1].EmergencyFundProgress?;
    }
  }

  /** A numeric goal above the balance shows the alert with progress balance/goal. */
  lemma EmergencyProgressNumeric(a: Asset, g: real)
    requires a.goal == Number(g) && g > 0.0 && 0.0 <= a.balance < g
    ensures Progress(a).Fin? && Progress(a).v * g == a.balance * 100.0 && Less(Progress(a), 100.0)
  {
    var q := a.balance / g;
    assert q * g == a.balance;
    assert q < 1.0 by {
      if q >= 1.0 {
        assert false;
      }
    }
    assert Progress(a) == Fin(q * 100.0);
  }

  /** A goal that is not a number (an object, or text that is not a numeral)
      makes the progress NaN, so no info alert is shown. */
  lemma NonNumericGoalNoAlert(a: Asset)
    requires ToNumber(a.goal).None?
    ensures Progress(a) == NaN && !Less(Progress(a), 100.0)
  {
  }
}
