// The dashboard's statement builder (`transformNodesToFinancialData` in
// web/src/components/FinancialDashboard.jsx): income items from income nodes,
// expense nodes sorted into subscription / variable / fixed buckets by their
// metadata, assets from savings and investment nodes, and every flow between
// two known nodes booked as an operating or investing inflow or outflow.

module Statements {
  import opened Js
  import opened Records
  import Seqs

  datatype IncomeItem = IncomeItem(name: string, amount: real, source: string, trend: real)

  /** An expense line; `cancel` is the `flag: 'cancel'` of a subscription and
      `budgeted` the metadata target of a variable expense (Undefined elsewhere). */
  datatype ExpenseItem = ExpenseItem(name: string, amount: real, cancel: bool, budgeted: JsVal)

  /** An asset line; `kind` is its `type` string ("Savings", "Investment", ...),
      `goal` the metadata goal when truthy (Undefined otherwise). */
  datatype Asset = Asset(name: string, balance: real, kind: string, apy: real, goal: JsVal)

  datatype Liability = Liability(name: string, balance: real)

  datatype Line = Line(name: string, amount: real)

  datatype Section = Section(inflowTotal: real, outflowTotal: real, inflows: seq<Line>, outflows: seq<Line>)

  datatype CashFlow = CashFlow(operating: Section, investing: Section, financing: Section)

  datatype Statement = Statement(
    income: seq<IncomeItem>,
    fixed: seq<ExpenseItem>,
    variable: seq<ExpenseItem>,
    subscriptions: seq<ExpenseItem>,
    assets: seq<Asset>,
    liabilities: seq<Liability>,
    cashFlow: CashFlow)

  const EmptySection: Section := Section(0.0, 0.0, [], [])
  const EmptyCashFlow: CashFlow := CashFlow(EmptySection, EmptySection, EmptySection)

  /** Metadata whose parse threw is replaced by `{}`. */
  function MetaOrEmpty(m: Meta): (r: Meta)
    ensures r.Parsed?
    ensures m.Parsed? ==> r == m
  {
    if m.Unparseable? then EmptyMeta else m
  }

  predicate IsIncomeNode(n: Node) { n.kind == Income }
  predicate IsExpenseNode(n: Node) { n.kind == Expense }
  predicate IsAssetNode(n: Node) { n.kind == Savings || n.kind == Investment }

  datatype Bucket = Subscriptions | Variable | Fixed

  /** `subscription === true` wins, then a truthy `budgeted`, else fixed. */
  function BucketOf(m: Meta): Bucket
  {
    var p := MetaOrEmpty(m);
    if p.subscription == Bool(true) then Subscriptions
    else if Truthy(p.budgeted) then Variable
    else Fixed
  }

  function IncomeItemOf(n: Node): IncomeItem
  {
    IncomeItem(n.name, OrZero(n.amount), if n.institution != "" then n.institution else "Income", 0.0)
  }

  function ExpenseItemOf(n: Node): ExpenseItem
  {
    var p := MetaOrEmpty(n.meta);
    match BucketOf(n.meta)
    case Subscriptions => ExpenseItem(n.name, OrZero(n.amount), p.flag == Str("cancel"), Undefined)
    case Variable => ExpenseItem(n.name, OrZero(n.amount), false, p.budgeted)
    case Fixed => ExpenseItem(n.name, OrZero(n.amount), false, Undefined)
  }

  function AssetOf(n: Node): Asset
  {
    var p := MetaOrEmpty(n.meta);
    Asset(n.name, OrZero(n.balance), if n.kind == Savings then "Savings" else "Investment",
          OrZero(n.apy), if Truthy(p.goal) then p.goal else Undefined)
  }

  // --------------------------------------------------------------------
  // Cash flow
  // --------------------------------------------------------------------

  datatype Category = Operating | Investing | Financing

  predicate IsInvestingType(t: NodeType) { t == Savings || t == Investment }

  /** A flow touching a savings or investment node is investing, any other operating. */
  function Classify(from: Node, to: Node): Category
  {
    if IsInvestingType(to.kind) || IsInvestingType(from.kind) then Investing else Operating
  }

  function SectionOf(cf: CashFlow, c: Category): Section
  {
    match c
    case Operating => cf.operating
    case Investing => cf.investing
    case Financing => cf.financing
  }

  function WithSection(cf: CashFlow, c: Category, s: Section): CashFlow
  {
    match c
    case Operating => cf.(operating := s)
    case Investing => cf.(investing := s)
    case Financing => cf.(financing := s)
  }

  /** Push a line and add its amount to the matching running total. */
  function Book(s: Section, line: Line, inflow: bool): Section
  {
    if inflow then s.(inflows := s.inflows + [line], inflowTotal := s.inflowTotal + line.amount)
    else s.(outflows := s.outflows + [line], outflowTotal := s.outflowTotal + line.amount)
  }

  /** One iteration of the flow loop: a flow with a missing endpoint is skipped;
      a flow out of an income node is an inflow, any other an outflow. */
  function StepFlow(cf: CashFlow, f: Flow, nodes: seq<Node>): CashFlow
  {
    var from := Find(nodes, f.from);
    var to := Find(nodes, f.to);
    if from.None? || to.None? then cf
    else
      var c := Classify(from.value, to.value);
      var line := Line(from.value.name + " → " + to.value.name, f.amount);
      WithSection(cf, c, Book(SectionOf(cf, c), line, from.value.kind == Income))
  }

  function CashFlowOf(flows: seq<Flow>, nodes: seq<Node>): CashFlow
  {
    if flows == [] then EmptyCashFlow
    else StepFlow(CashFlowOf(flows[..|flows| - 1], nodes), flows[|flows| - 1], nodes)
  }

  /** The statement `transformNodesToFinancialData(nodes, flows)` returns. */
  function StatementOf(nodes: seq<Node>, flows: seq<Flow>): Statement
  {
    var expenses := Seqs.Filter(nodes, IsExpenseNode);
    Statement(
      Seqs.Map(Seqs.Filter(nodes, IsIncomeNode), IncomeItemOf),
      Bucketed(expenses, Fixed),
      Bucketed(expenses, Variable),
      Bucketed(expenses, Subscriptions),
      Seqs.Map(Seqs.Filter(nodes, IsAssetNode), AssetOf),
      [],
      CashFlowOf(flows, nodes))
  }

  /** The items of the nodes of ns whose metadata selects bucket b, in order. */
  function Bucketed(ns: seq<Node>, b: Bucket): seq<ExpenseItem>
  {
    if ns == [] then []
    else
      var n := ns[|ns| - 1];
      Bucketed(ns[..|ns| - 1], b) + (if BucketOf(n.meta) == b then [ExpenseItemOf(n)] else [])
  }

  lemma BucketedSnoc(ns: seq<Node>, n: Node, b: Bucket)
    ensures Bucketed(ns + [n], b) == Bucketed(ns, b) + (if BucketOf(n.meta) == b then [ExpenseItemOf(n)] else [])
  {
    assert (ns + [n])[..|ns|] == ns;
  }

  /** The expense loop of `transformNodesToFinancialData`: each expense node's
      item is pushed onto the bucket its metadata selects. */
  method SortExpenses(expenseNodes: seq<Node>) returns (fixed: seq<ExpenseItem>, variable: seq<ExpenseItem>, subscriptions: seq<ExpenseItem>)
    ensures fixed == Bucketed(expenseNodes, Fixed)
    ensures variable == Bucketed(expenseNodes, Variable)
    ensures subscriptions == Bucketed(expenseNodes, Subscriptions)
  {
    fixed, variable, subscriptions := [], [], [];
    for i := 0 to |expenseNodes|
      invariant fixed == Bucketed(expenseNodes[..i], Fixed)
      invariant variable == Bucketed(expenseNodes[..i], Variable)
      invariant subscriptions == Bucketed(expenseNodes[..i], Subscriptions)
    {
      var n := expenseNodes[i];
      assert expenseNodes[..i + 1] == expenseNodes[..i] + [n];
      BucketedSnoc(expenseNodes[..i], n, Fixed);
      BucketedSnoc(expenseNodes[..i], n, Variable);
      BucketedSnoc(expenseNodes[..i], n, Subscriptions);
      var metadata := MetaOrEmpty(n.meta);
      var item := ExpenseItem(n.name, OrZero(n.amount), false, Undefined);
      if metadata.subscription == Bool(true) {
        if metadata.flag == Str("cancel") {
          item := item.(cancel := true);
        }
        subscriptions := subscriptions + [item];
      } else if Truthy(metadata.budgeted) {
        variable := variable + [item.(budgeted := metadata.budgeted)];
      } else {
        fixed := fixed + [item];
      }
    }
    assert expenseNodes[..|expenseNodes|] == expenseNodes;
  }

  /** The flow loop of `transformNodesToFinancialData`. */
  method BookFlows(flows: seq<Flow>, nodes: seq<Node>) returns (cf: CashFlow)
    ensures cf == CashFlowOf(flows, nodes)
  {
    var operating := EmptySection;
    var investing := EmptySection;
    var financing := EmptySection;
    for i := 0 to |flows|
      invariant CashFlow(operating, investing, financing) == CashFlowOf(flows[..i], nodes)
    {
      var f := flows[i];
      assert flows[..i + 1][..i] == flows[..i];
      var fromNode := Find(nodes, f.from);
      var toNode := Find(nodes, f.to);
      if fromNode.Some? && toNode.Some? {
        var line := Line(fromNode.value.name + " → " + toNode.value.name, f.amount);
        var isInflow := fromNode.value.kind == Income;
        if IsInvestingType(toNode.value.kind) || IsInvestingType(fromNode.value.kind) {
          investing := Book(investing, line, isInflow);
        } else {
          operating := Book(operating, line, isInflow);
        }
      }
    }
    assert flows[..|flows|] == flows;
    cf := CashFlow(operating, investing, financing);
  }

  /** `transformNodesToFinancialData`: filters and maps for income and assets,
      the expense loop and the flow loop; liabilities are always empty. */
  method Transform(nodes: seq<Node>, flows: seq<Flow>) returns (st: Statement)
    ensures st == StatementOf(nodes, flows)
  {
    var incomeNodes := Seqs.Filter(nodes, IsIncomeNode);
    var expenseNodes := Seqs.Filter(nodes, IsExpenseNode);
    var assetNodes := Seqs.Filter(nodes, IsAssetNode);
    var income := Seqs.Map(incomeNodes, IncomeItemOf);
    var fixed, variable, subscriptions := SortExpenses(expenseNodes);
    var assets := Seqs.Map(assetNodes, AssetOf);
    var cashFlow := BookFlows(flows, nodes);
    st := Statement(income, fixed, variable, subscriptions, assets, [], cashFlow);
  }

  // --------------------------------------------------------------------
  // Properties of the statement
  // --------------------------------------------------------------------

  /** The three buckets together hold one item per node. */
  lemma {:induction false} BucketSizes(ns: seq<Node>)
    ensures |Bucketed(ns, Fixed)| + |Bucketed(ns, Variable)| + |Bucketed(ns, Subscriptions)| == |ns|
  {
    if ns != [] {
      BucketSizes(ns[..|ns| - 1]);
    }
  }

  /** Every node's item is in the bucket its metadata selects. */
  lemma {:induction false} BucketHasItem(ns: seq<Node>, n: Node)
    requires n in ns
    ensures ExpenseItemOf(n) in Bucketed(ns, BucketOf(n.meta))
  {
    var init := ns[..|ns| - 1];
    assert ns == init + [ns[|ns| - 1]];
    if n != ns[|ns| - 1] {
      BucketHasItem(init, n);
    }
  }

  /** Every item of a bucket is the item of a node of ns that selects that bucket. */
  lemma {:induction false} BucketItemOrigin(ns: seq<Node>, b: Bucket, item: ExpenseItem)
    requires item in Bucketed(ns, b)
    ensures exists n :: n in ns && BucketOf(n.meta) == b && item == ExpenseItemOf(n)
  {
    var init := ns[..|ns| - 1];
    var last := ns[|ns| - 1];
    assert ns == init + [last];
    if item in Bucketed(init, b) {
      BucketItemOrigin(init, b, item);
    } else {
      assert last in ns;
    }
  }

  /** Every expense node lands in exactly one bucket: the buckets hold one item
      per expense node, and each expense node's item is in its own bucket. */
  lemma ExpenseBucketsPartition(nodes: seq<Node>, flows: seq<Flow>)
    ensures var st := StatementOf(nodes, flows);
      |st.fixed| + |st.variable| + |st.subscriptions| == |Seqs.Filter(nodes, IsExpenseNode)|
    ensures var st := StatementOf(nodes, flows);
      forall n :: n in nodes && n.kind == Expense ==>
        ExpenseItemOf(n) in (match BucketOf(n.meta)
                             case Subscriptions => st.subscriptions
                             case Variable => st.variable
                             case Fixed => st.fixed)
  {
    var expenses := Seqs.Filter(nodes, IsExpenseNode);
    BucketSizes(expenses);
    forall n | n in nodes && n.kind == Expense
      ensures ExpenseItemOf(n) in Bucketed(expenses, BucketOf(n.meta))
    {
      BucketHasItem(expenses, n);
    }
  }

  /** Metadata that does not parse counts as `{}`, so the node is a fixed expense. */
  lemma UnparseableIsFixed(raw: string)
    ensures BucketOf(Unparseable(raw)) == Fixed
  {
  }

  /** Only subscriptions flagged `'cancel'` carry the flag; variable items carry
      their truthy budgeted target; fixed items carry neither. Each item comes
      from an expense node of the profile and keeps its name and amount. */
  lemma BucketItemFields(nodes: seq<Node>, flows: seq<Flow>, item: ExpenseItem)
    ensures var st := StatementOf(nodes, flows);
      item in st.subscriptions ==>
        exists n :: n in nodes && n.kind == Expense && MetaOrEmpty(n.meta).subscription == Bool(true)
          && item.name == n.name && item.amount == OrZero(n.amount)
          && (item.cancel <==> MetaOrEmpty(n.meta).flag == Str("cancel"))
    ensures var st := StatementOf(nodes, flows);
      item in st.variable ==> !item.cancel && Truthy(item.budgeted)
    ensures var st := StatementOf(nodes, flows);
      item in st.fixed ==> !item.cancel && item.budgeted == Undefined
  {
    var expenses := Seqs.Filter(nodes, IsExpenseNode);
    var st := StatementOf(nodes, flows);
    if item in st.subscriptions {
      BucketItemOrigin(expenses, Subscriptions, item);
      var n :| n in expenses && BucketOf(n.meta) == Subscriptions && item == ExpenseItemOf(n);
      assert n in nodes && n.kind == Expense;
    }
    if item in st.variable {
      BucketItemOrigin(expenses, Variable, item);
    }
    if item in st.fixed {
      BucketItemOrigin(expenses, Fixed, item);
    }
  }

  /** Each income node yields one income item, in order: amount defaults to 0,
      the source is the institution or "Income", and the trend is 0. */
  lemma IncomeItemsFromIncomeNodes(nodes: seq<Node>, flows: seq<Flow>)
    ensures var st := StatementOf(nodes, flows);
      var inc := Seqs.Filter(nodes, IsIncomeNode);
      && |st.income| == |inc|
      && forall k :: 0 <= k < |inc| ==>
           && inc[k].kind == Income
           && st.income[k].name == inc[k].name
           && st.income[k].amount == OrZero(inc[k].amount)
           && (inc[k].institution == "" ==> st.income[k].source == "Income")
           && (inc[k].institution != "" ==> st.income[k].source == inc[k].institution)
           && st.income[k].trend == 0.0
  {
    var inc := Seqs.Filter(nodes, IsIncomeNode);
    forall k | 0 <= k < |inc| ensures inc[k].kind == Income {
      assert inc[k] in inc;
    }
  }

  /** Assets are exactly the savings and investment nodes, in order: "Savings"
      iff the node is a savings node, zero defaults, and a goal only when the
      metadata goal is truthy. */
  lemma AssetsFromSavingsAndInvestments(nodes: seq<Node>, flows: seq<Flow>)
    ensures var st := StatementOf(nodes, flows);
      var an := Seqs.Filter(nodes, IsAssetNode);
      && |st.assets| == |an|
      && (forall n :: n in an <==> n in nodes && (n.kind == Savings || n.kind == Investment))
      && forall k :: 0 <= k < |an| ==>
           && (st.assets[k].kind == "Savings" <==> an[k].kind == Savings)
           && (st.assets[k].kind == "Investment" <==> an[k].kind == Investment)
           && st.assets[k].balance == OrZero(an[k].balance)
           && st.assets[k].apy == OrZero(an[k].apy)
           && (Truthy(st.assets[k].goal) <==> Truthy(MetaOrEmpty(an[k].meta).goal))
  {
    var an := Seqs.Filter(nodes, IsAssetNode);
    forall k | 0 <= k < |an| ensures an[k].kind == Savings || an[k].kind == Investment {
      assert an[k] in an;
    }
  }

  /** A flow with a missing endpoint changes nothing. */
  lemma MissingEndpointIgnored(cf: CashFlow, f: Flow, nodes: seq<Node>)
    requires Find(nodes, f.from).None? || Find(nodes, f.to).None?
    ensures StepFlow(cf, f, nodes) == cf
  {
  }

  /** A flow between known nodes goes to investing iff an endpoint is a savings or
      investment node, else to operating; it is an inflow iff it leaves an
      income node; the other sections are untouched, financing always. */
  lemma StepBooksOneLine(cf: CashFlow, f: Flow, nodes: seq<Node>)
    requires Find(nodes, f.from).Some? && Find(nodes, f.to).Some?
    ensures var from := Find(nodes, f.from).value;
      var to := Find(nodes, f.to).value;
      var c := if IsInvestingType(from.kind) || IsInvestingType(to.kind) then Investing else Operating;
      var other := if c == Investing then Operating else Investing;
      var s := SectionOf(StepFlow(cf, f, nodes), c);
      && SectionOf(StepFlow(cf, f, nodes), other) == SectionOf(cf, other)
      && StepFlow(cf, f, nodes).financing == cf.financing
      && (from.kind == Income ==>
            s.inflows == SectionOf(cf, c).inflows + [Line(from.name + " → " + to.name, f.amount)]
            && s.outflows == SectionOf(cf, c).outflows)
      && (from.kind != Income ==>
            s.outflows == SectionOf(cf, c).outflows + [Line(from.name + " → " + to.name, f.amount)]
            && s.inflows == SectionOf(cf, c).inflows)
  {
  }

  /** The financing section is never written. */
  lemma {:induction false} FinancingNeverWritten(flows: seq<Flow>, nodes: seq<Node>)
    ensures CashFlowOf(flows, nodes).financing == EmptySection
  {
    if flows != [] {
      FinancingNeverWritten(flows[..|flows| - 1], nodes);
    }
  }

  function LineAmount(l: Line): real { l.amount }

  function SumLines(lines: seq<Line>): real { Seqs.Sum(lines, LineAmount) }

  /** The running totals equal the sums of the lines pushed. */
  predicate TotalsMatch(s: Section)
  {
    s.inflowTotal == SumLines(s.inflows) && s.outflowTotal == SumLines(s.outflows)
  }

  lemma BookKeepsTotals(s: Section, line: Line, inflow: bool)
    requires TotalsMatch(s)
    ensures TotalsMatch(Book(s, line, inflow))
  {
    if inflow {
      Seqs.SumSnoc(s.inflows, line, LineAmount);
    } else {
      Seqs.SumSnoc(s.outflows, line, LineAmount);
    }
  }

  /** In every section, inflowTotal and outflowTotal equal the sums of the
      inflow and outflow line amounts. */
  lemma {:induction false} TotalsAreLineSums(flows: seq<Flow>, nodes: seq<Node>)
    ensures var cf := CashFlowOf(flows, nodes);
      TotalsMatch(cf.operating) && TotalsMatch(cf.investing) && TotalsMatch(cf.financing)
  {
    if flows != [] {
      var init := flows[..|flows| - 1];
      var f := flows[|flows| - 1];
      TotalsAreLineSums(init, nodes);
      var cf := CashFlowOf(init, nodes);
      var from := Find(nodes, f.from);
      var to := Find(nodes, f.to);
      if from.Some? && to.Some? {
        var c := Classify(from.value, to.value);
        BookKeepsTotals(SectionOf(cf, c), Line(from.value.name + " → " + to.value.name, f.amount), from.value.kind == Income);
      }
    }
  }

  /** Amount of a flow whose both endpoints exist, else 0. */
  function BookedAmount(nodes: seq<Node>): Flow -> real
  {
    (f: Flow) => if Find(nodes, f.from).Some? && Find(nodes, f.to).Some? then f.amount else 0.0
  }

  function SectionTotal(s: Section): real { s.inflowTotal + s.outflowTotal }

  /** Nothing is lost or counted twice: the totals of all sections add up to
      the amounts of the flows whose endpoints both exist. */
  lemma {:induction false} TotalsConserveAmounts(flows: seq<Flow>, nodes: seq<Node>)
    ensures var cf := CashFlowOf(flows, nodes);
      SectionTotal(cf.operating) + SectionTotal(cf.investing) + SectionTotal(cf.financing)
        == Seqs.Sum(flows, BookedAmount(nodes))
  {
    if flows != [] {
      TotalsConserveAmounts(flows[..|flows| - 1], nodes);
    }
  }
}
