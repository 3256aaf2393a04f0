// The application shells: the dashboard totals of web/src/App.jsx (shared
// with the DashboardView of archive/src/App.jsx), the refresh counter that
// remounts the node-management screen, and which screen each shell renders.

module App {
  import opened Js
  import opened Records
  import Seqs
  import Statements
  import Ratios
  import Handlers

  // ---------------------------------------------------------------------
  // Dashboard totals
  // ---------------------------------------------------------------------

  /** `n.amount || 0`. */
  function IncomeOf(n: Node): real { OrZero(n.amount) }

  /** `n.balance || 0`. */
  function BalanceOf(n: Node): real { OrZero(n.balance) }

  /** Net Income: the income nodes' amounts, a missing amount counted as 0. */
  function TotalIncome(nodes: seq<Node>): real
  {
    Seqs.Sum(Seqs.Filter(nodes, Statements.IsIncomeNode), IncomeOf)
  }

  /** Total Assets: the savings and investment nodes' balances. */
  function TotalAssets(nodes: seq<Node>): real
  {
    Seqs.Sum(Seqs.Filter(nodes, Statements.IsAssetNode), BalanceOf)
  }

  /** The flow's target, looked up with `nodes.find`, exists and is an
      expense or budget node. */
  predicate IntoExpense(nodes: seq<Node>, f: Flow)
  {
    var to := Find(nodes, f.to);
    to.Some? && (to.value.kind == Expense || to.value.kind == Budget)
  }

  function ExpenseTest(nodes: seq<Node>): Flow -> bool
  {
    (f: Flow) => IntoExpense(nodes, f)
  }

  function FlowAmount(f: Flow): real { f.amount }

  /** Monthly Expenses: the amounts of the flows into expense and budget nodes. */
  function TotalExpenses(nodes: seq<Node>, flows: seq<Flow>): real
  {
    Seqs.Sum(Seqs.Filter(flows, ExpenseTest(nodes)), FlowAmount)
  }

  /** The four figures of the dashboard. */
  datatype Totals = Totals(income: real, assets: real, expenses: real, surplus: real)

  function DashboardTotals(nodes: seq<Node>, flows: seq<Flow>): (t: Totals)
    ensures t.income == TotalIncome(nodes) && t.assets == TotalAssets(nodes)
    ensures t.expenses == TotalExpenses(nodes, flows)
    ensures t.surplus + t.expenses == t.income
  {
    var income := TotalIncome(nodes);
    var expenses := TotalExpenses(nodes, flows);
    Totals(income, TotalAssets(nodes), expenses, income - expenses)
  }

  /** The dashboard's Net Income is the total income of the statement the
      financial dashboard builds from the same nodes. */
  lemma IncomeMatchesStatement(nodes: seq<Node>, flows: seq<Flow>)
    ensures TotalIncome(nodes) == Ratios.TotalIncome(Statements.StatementOf(nodes, flows))
  {
    Seqs.SumMap(Seqs.Filter(nodes, Statements.IsIncomeNode), Statements.IncomeItemOf, Ratios.IncomeAmount, IncomeOf);
  }

  /** The dashboard's Total Assets is the total of the statement's assets. */
  lemma AssetsMatchStatement(nodes: seq<Node>, flows: seq<Flow>)
    ensures TotalAssets(nodes) == Ratios.TotalAssets(Statements.StatementOf(nodes, flows))
  {
    Seqs.SumMap(Seqs.Filter(nodes, Statements.IsAssetNode), Statements.AssetOf, Ratios.AssetBalance, BalanceOf);
  }

  /** One more income node raises Net Income by its amount (0 when it has
      none); any other node leaves it as it was. */
  lemma IncomeOneMore(nodes: seq<Node>, n: Node)
    ensures TotalIncome(nodes + [n]) == TotalIncome(nodes) + (if n.kind == Income then OrZero(n.amount) else 0.0)
  {
    Seqs.FilterSnoc(nodes, n, Statements.IsIncomeNode);
    var inc := Seqs.Filter(nodes, Statements.IsIncomeNode);
    if n.kind == Income {
      Seqs.SumSnoc(inc, n, IncomeOf);
    } else {
      assert inc + [] == inc;
    }
  }

  /** One more flow raises Monthly Expenses by its amount exactly when its
      target exists and is an expense or budget node; a flow to an unknown
      node is ignored. */
  lemma ExpensesOneMore(nodes: seq<Node>, flows: seq<Flow>, f: Flow)
    ensures TotalExpenses(nodes, flows + [f]) ==
      TotalExpenses(nodes, flows) + (if IntoExpense(nodes, f) then f.amount else 0.0)
    ensures Find(nodes, f.to).None? ==> TotalExpenses(nodes, flows + [f]) == TotalExpenses(nodes, flows)
  {
    Seqs.FilterSnoc(flows, f, ExpenseTest(nodes));
    var kept := Seqs.Filter(flows, ExpenseTest(nodes));
    if IntoExpense(nodes, f) {
      Seqs.SumSnoc(kept, f, FlowAmount);
    } else {
      assert kept + [] == kept;
    }
  }

  /** Net Surplus falls by exactly what one more expense flow adds to the expenses. */
  lemma SurplusOneMore(nodes: seq<Node>, flows: seq<Flow>, f: Flow)
    requires IntoExpense(nodes, f)
    ensures DashboardTotals(nodes, flows + [f]).surplus == DashboardTotals(nodes, flows).surplus - f.amount
  {
    ExpensesOneMore(nodes, flows, f);
  }

  // ---------------------------------------------------------------------
  // The refresh counter of ManageItemsView
  // ---------------------------------------------------------------------

  /** The key NodeManagement is mounted under: `nodes-${refreshKey}`. */
  function MountKey(k: nat): string
  {
    "nodes-" + Handlers.FormatInt(k)
  }

  /** Different counter values give different keys, so every update mounts
      the screen afresh. */
  lemma MountKeysDistinct(a: nat, b: nat)
    ensures MountKey(a) == MountKey(b) <==> a == b
  {
    if MountKey(a) == MountKey(b) {
      var prefix := "nodes-";
      assert MountKey(a)[|prefix|..] == Handlers.FormatInt(a);
      assert MountKey(b)[|prefix|..] == Handlers.FormatInt(b);
      Handlers.DecimalValue(a);
      Handlers.DecimalValue(b);
    }
  }

  class ManageItems {
    var refreshKey: nat

    constructor ()
      ensures refreshKey == 0
    {
      refreshKey := 0;
    }

    /** handleUpdate: `setRefreshKey(k => k + 1)`. */
    method HandleUpdate()
      modifies this
      ensures refreshKey == old(refreshKey) + 1
      ensures MountKey(refreshKey) != MountKey(old(refreshKey))
    {
      MountKeysDistinct(refreshKey, refreshKey + 1);
      refreshKey := refreshKey + 1;
    }
  }

  // ---------------------------------------------------------------------
  // renderView
  // ---------------------------------------------------------------------

  /** What the live shell shows, with the profile id each screen receives. */
  datatype Screen =
    | Placeholder
    | Dashboard(profile: int)
    | Financials(profile: int)
    | ManageItemsScreen(profile: int)
    | BudgetsScreen(profile: int)

  /** The ids of the live navigation items. */
  const LiveNav: seq<string> := ["dashboard", "financial-dashboard", "items", "budgets"]

  /** renderView: the placeholder without an active profile; else the screen
      of the view id, with the dashboard for any other id. */
  function RenderView(activeProfile: Option<int>, activeView: string): (r: Screen)
    ensures activeProfile.None? <==> r == Placeholder
    ensures activeProfile.Some? ==> r.profile == activeProfile.value
    ensures activeProfile.Some? && activeView !in LiveNav ==> r == Dashboard(activeProfile.value)
  {
    if activeProfile.None? then Placeholder
    else
      var p := activeProfile.value;
      if activeView == "dashboard" then Dashboard(p)
      else if activeView == "financial-dashboard" then Financials(p)
      else if activeView == "items" then ManageItemsScreen(p)
      else if activeView == "budgets" then BudgetsScreen(p)
      else Dashboard(p)
  }

  /** The nav items lead to four different screens. */
  lemma LiveNavDistinctScreens(p: int)
    ensures forall i, j :: 0 <= i < j < |LiveNav| ==>
      RenderView(Some(p), LiveNav[i]) != RenderView(Some(p), LiveNav[j])
  {
    assert RenderView(Some(p), LiveNav[0]) == Dashboard(p);
    assert RenderView(Some(p), LiveNav[1]) == Financials(p);
    assert RenderView(Some(p), LiveNav[2]) == ManageItemsScreen(p);
    assert RenderView(Some(p), LiveNav[3]) == BudgetsScreen(p);
  }

  /** What the archived shell shows. */
  datatype ArchiveScreen = ArchiveDashboard | ArchiveFlow | ArchiveBudgets | ArchiveGoals

  const ArchiveNav: seq<string> := ["dashboard", "flow", "budgets", "goals"]

  /** AppShell.renderView of the archived app: no profile check, the
      dashboard for an unknown id. */
  function ArchiveRenderView(activeView: string): (r: ArchiveScreen)
    ensures activeView !in ArchiveNav ==> r == ArchiveDashboard
    ensures r == ArchiveFlow <==> activeView == "flow"
    ensures r == ArchiveBudgets <==> activeView == "budgets"
    ensures r == ArchiveGoals <==> activeView == "goals"
  {
    if activeView == "dashboard" then ArchiveDashboard
    else if activeView == "flow" then ArchiveFlow
    else if activeView == "budgets" then ArchiveBudgets
    else if activeView == "goals" then ArchiveGoals
    else ArchiveDashboard
  }
}
