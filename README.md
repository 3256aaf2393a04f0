# vault-x core, modelled in Dafny

vault-x is a personal-finance dashboard. A Go/SQLite server stores typed
*nodes* (income, account, savings, investment, expense, budget, goal) and money
*flows* between them, plus budgets with transactions and goals with
contributions. A React front end turns these records into statements, ratios,
alerts, budget and goal progress, and a Sankey diagram. This project models the
deterministic rules underneath that code and proves what they promise.

Modules, one file each:

- `js.dfy` (`Js`): the JavaScript semantics the front end relies on. It covers truthiness, `x || 0`, division that can give an infinity or NaN, `Math.round`/`Math.min`, and `parseFloat` and `Number()` on form text.
- `seqs.dfy` (`Seqs`): generic `Filter`/`Map`/`Sum` over sequences, with their algebra.
- `substring.dfy` (`Substring`): `contains`/`stringContains` of the database layer.
- `records.dfy` (`Records`): node types, the client's node and flow records, and metadata as a parse result.
- `flow_rules.dfy` (`FlowRules`): the connection tables of the flow section, and its add-flow form as a class.
- `statements.dfy` (`Statements`): `transformNodesToFinancialData`. Its loops are methods proved against a specification function.
- `ratios.dfy` (`Ratios`): financial ratios, health score, `RatioBar` colours, balance sheet, cash-flow statement and alerts. These are shared by the live and the archived dashboard.
- `store.dfy` (`Handlers`): the HTTP handlers, modelled over an in-memory store of tables, with a class `Store` whose methods update them.
- `node_management.dfy` (`NodeManagement`): the management screen's categories, its save payload, and its editor state as a class.
- `sankey.dfy` (`Sankey`): node values, thickness, paths, the live and the fixed-stride layouts, and the particle step.
- `budgets.dfy` (`Budgets`): the budget card, the archived budget list, and the goal panel, with classes for their state.
- `app.dfy` (`App`): dashboard totals, the refresh counter and `renderView` of both application shells.

Money is `real`. Every `x || 0` on a server number is `Js.OrZero` of an
`Option<real>`, because Go's `omitempty` drops zero amounts from the JSON.
"Today" and the results of network calls are parameters.

## Model

| member | source | states |
|---|---|---|
| Js.OrZero | web/src/App.jsx:55 | `x \|\| 0` on an optional number is the number when present and 0 when absent |
| Js.Div | web/src/components/FinancialDashboard.jsx:502-504 | JavaScript division is finite iff the divisor is non-zero, then times the divisor gives the dividend; x/0 is +Infinity, -Infinity or NaN by the sign of x |
| Js.ParseFloat | web/src/components/GoalsManager.jsx:89 | parseFloat of the empty string is NaN, and a number is produced only when the text holds a digit |
| Js.ParseFloatExamples | web/src/components/BudgetManager.jsx:105 | parseFloat gives NaN on "", "abc" and "-", and reads "42", "-7" and "0" as those numbers |
| Js.StringToNumber | web/src/components/FinancialDashboard.jsx:606 | `Number(s)` agrees with parseFloat on every non-empty string it accepts |
| Js.OrOne | web/src/components/FinancialDashboard.jsx:505 | `x \|\| 1` is never 0 and is x whenever x is non-zero |
| Js.NumberInputFilledParses | web/src/components/GoalsManager.jsx:326 | the text of a number input is non-empty iff it parses |
| Records.TypeNameInjective | internal/handlers/handlers.go:377 | distinct node types have distinct type names |
| Records.Find | web/src/App.jsx:63 | `nodes.find` returns a node with the id that is in the list, and returns nothing iff no node has that id |
| Records.FindOwnId | web/src/App.jsx:63 | with unique ids, looking up a node's own id finds that node |
| Substring.InfixIffOccurs | internal/database/database.go:273-284 | the recursive "prefix or occurs in the tail" definition agrees with "some start position matches" on all inputs |
| Substring.StringContains | internal/database/database.go:277-284 | the index loop with early return answers true iff sub occurs in s, and answers false when sub is longer than s |
| Substring.Contains | internal/database/database.go:273-275 | the length guard and the equality shortcut keep the answer equal to plain substring containment |
| Substring.OccursSelf | internal/database/database.go:274 | every string contains itself |
| Substring.OccursEmpty | internal/database/database.go:278-279 | every string contains the empty string |
| Substring.LongerNeverOccurs | internal/database/database.go:274 | a longer string never occurs |
| FlowRules.SourcesInvertDestinations | web/src/components/FlowSection.jsx:15-22 | type b is a destination of type a iff a is a source of b (both tables written out) |
| FlowRules.ValidDestinations | web/src/components/FlowSection.jsx:23-24 | the candidates are exactly the other nodes whose type the table allows, and there are none for a type without destinations |
| FlowRules.ValidSources | web/src/components/FlowSection.jsx:36-37 | the same for sources |
| FlowRules.GoalHasNoCandidates | web/src/components/FlowSection.jsx:23-36 | a type missing from the tables (goal) has no candidates either way |
| FlowRules.CandidatesMirror | web/src/components/FlowSection.jsx:14-38 | y may receive from x iff x may send to y |
| FlowRules.FlowForm.CandidateRespects | web/src/components/FlowSection.jsx:61-62 | any candidate, placed by the direction rule, gives a flow the tables allow between two different nodes |
| FlowRules.FlowForm.constructor | web/src/components/FlowSection.jsx:5-7 | a new form is closed, blank, with split mode off |
| FlowRules.FlowForm.Open | web/src/components/FlowSection.jsx:158-165 | "Add flow" exists only when the node can send or receive, and opens a blank form |
| FlowRules.FlowForm.Select | web/src/components/FlowSection.jsx:173-183 | choosing an expense/budget target while sending and not splitting fills in its amount (0 when absent); any other choice keeps the amount |
| FlowRules.FlowForm.SetAmount | web/src/components/FlowSection.jsx:227-229 | typing changes the amount only when it is not locked |
| FlowRules.FlowForm.SetSplit | web/src/components/FlowSection.jsx:94-101 | turning split mode off refills the target amount only when it is > 0 (also line 200) |
| FlowRules.FlowForm.Save | web/src/components/FlowSection.jsx:58-69 | a request is sent iff Save is enabled; it goes from the node if it can send, else to it, with label '' and recurring true and a positive amount; the form then closes blank (also line 239) |
| FlowRules.FlowForm.Cancel | web/src/components/FlowSection.jsx:104-108 | cancelling closes and clears the form, and resets split mode (also lines 244-248) |
| FlowRules.ZeroAmountExpenseSelected | web/src/components/FlowSection.jsx:178-180 | selecting an expense without an amount locks the amount to "0", and Save stays disabled |
| FlowRules.ZeroAmountExpenseScenario | web/src/components/FlowSection.jsx:178-180 | from there, split mode lets the user type an amount that stays after split mode is turned off, and the flow carries the typed amount |
| Statements.MetaOrEmpty | web/src/components/FinancialDashboard.jsx:692-697 | unparseable metadata is read as `{}`; parsed metadata is kept |
| Statements.BucketedSnoc | web/src/components/FinancialDashboard.jsx:691-717 | one more expense node adds its item to the end of its own bucket only |
| Statements.SortExpenses | web/src/components/FinancialDashboard.jsx:685-717 | the push loop fills each bucket with exactly the items of the nodes of that bucket, in input order |
| Statements.BookFlows | web/src/components/FinancialDashboard.jsx:743-776 | the forEach with `+=` produces the cash-flow statement of the specification function |
| Statements.Transform | web/src/components/FinancialDashboard.jsx:670-785 | the transformer produces the statement of the specification function |
| Statements.BucketSizes | web/src/components/FinancialDashboard.jsx:691-717 | the three buckets together have as many items as there are expense nodes |
| Statements.BucketHasItem | web/src/components/FinancialDashboard.jsx:701-716 | every expense node's item is in the bucket its metadata selects |
| Statements.BucketItemOrigin | web/src/components/FinancialDashboard.jsx:701-716 | every item of a bucket comes from an expense node of that bucket |
| Statements.ExpenseBucketsPartition | web/src/components/FinancialDashboard.jsx:673-717 | every expense node lands in exactly one bucket: subscription === true, else truthy budgeted, else fixed |
| Statements.UnparseableIsFixed | web/src/components/FinancialDashboard.jsx:695-715 | unparseable metadata lands in fixed |
| Statements.BucketItemFields | web/src/components/FinancialDashboard.jsx:699-712 | only subscriptions flagged cancel carry the flag, and variable items carry their budgeted target |
| Statements.IncomeItemsFromIncomeNodes | web/src/components/FinancialDashboard.jsx:672-682 | one income item per income node in input order: amount or 0, institution or 'Income', trend 0 |
| Statements.AssetsFromSavingsAndInvestments | web/src/components/FinancialDashboard.jsx:720-740 | assets are the savings and investment nodes: 'Savings' iff savings, balance/apy or 0, goal only when truthy (also line 674) |
| Statements.MissingEndpointIgnored | web/src/components/FinancialDashboard.jsx:750-753 | a flow with a missing endpoint changes nothing |
| Statements.StepBooksOneLine | web/src/components/FinancialDashboard.jsx:756-775 | any other flow adds one line: investing iff an endpoint is savings/investment, inflow iff the source is income |
| Statements.FinancingNeverWritten | web/src/components/FinancialDashboard.jsx:746-760 | the financing section stays empty |
| Statements.BookKeepsTotals | web/src/components/FinancialDashboard.jsx:764-774 | booking a line keeps each total equal to the sum of its lines |
| Statements.TotalsAreLineSums | web/src/components/FinancialDashboard.jsx:763-775 | in every section inflowTotal and outflowTotal equal the sums of their lines |
| Statements.TotalsConserveAmounts | web/src/components/FinancialDashboard.jsx:749-776 | all totals together equal the sum of the amounts of flows whose endpoints both exist |
| Ratios.SavingsRate | web/src/components/FinancialDashboard.jsx:502 | the savings rate is finite iff income is non-zero, and is then net income / income x 100 |
| Ratios.ExpenseRatio | web/src/components/FinancialDashboard.jsx:503 | the expense ratio likewise, unguarded when income is 0 |
| Ratios.SavingsAndExpenseRatioComplement | web/src/components/FinancialDashboard.jsx:500-503 | with non-zero income the two ratios add up to 100 |
| Ratios.DebtToAsset | web/src/components/FinancialDashboard.jsx:504 | 0 without liabilities, else liabilities / assets x 100, which is +Infinity when assets are 0 |
| Ratios.Liquidity | web/src/components/FinancialDashboard.jsx:505 | Cash and Savings balances divided by `totalExpenses \|\| 1` |
| Ratios.HealthScore | web/src/components/FinancialDashboard.jsx:558 | the score is never above 100 and never +Infinity |
| Ratios.HealthScoreUnboundedBelow | web/src/components/FinancialDashboard.jsx:558 | for every bound there is a statement whose score is finite and below it |
| Ratios.EmptyStatementScoresNaN | web/src/components/FinancialDashboard.jsx:502-558 | with no income and no expenses both ratios and the score are NaN |
| Ratios.RatioColorMonotone | web/src/components/FinancialDashboard.jsx:137-141 | `RatioBar` is red iff value > danger, amber iff warning < value <= danger, and its colour never improves as the value rises |
| Ratios.BarWidth | web/src/components/FinancialDashboard.jsx:135-154 | the bar width is at most 100 and equals the value up to 100 |
| Ratios.SavingsRateColorMatchesAlert | web/src/components/FinancialDashboard.jsx:516-520 | the corrected savings-rate colour is non-green iff the low-savings alert fires, and red iff the rate is below 5 (also line 595) |
| Ratios.HealthySavingsRateShownRed | web/src/components/FinancialDashboard.jsx:516-520 | as written, a 20% savings rate is shown red on the panel with no low-savings alert, while the corrected panel shows it green (see Findings) |
| Ratios.Bars | web/src/components/FinancialDashboard.jsx:516-530 | as written, the savings bar is red iff the rate exceeds 5 and is never amber; the expense bar is red above 95 and amber in (80, 95]; the debt bar is red above 50 and green up to 30; each width is `Math.min(value, 100)` (colour rule at lines 139-140) |
| Ratios.CorrectedBars | web/src/components/FinancialDashboard.jsx:516-520 | the corrected savings bar leaves green iff the low-savings alert fires and is red iff the rate is below 5; every other bar and width is as written |
| Ratios.RingPercentage | archive/FinancialDashboard.jsx:376 | the ring divides by `(assets + liabilities) \|\| 1` |
| Ratios.RingPercentageBounded | archive/FinancialDashboard.jsx:376 | with non-negative totals the ring percentage lies in [0, 100] |
| Ratios.TransformedNetWorth | archive/FinancialDashboard.jsx:269-271 | a transformed statement has no liabilities, so net worth is total assets and debt-to-asset is 0 |
| Ratios.NetCashFlowIsSignedSum | web/src/components/FinancialDashboard.jsx:392-395 | netCF, the sum of the three sections' CFs, is the sum of the booked flows counted + for inflows and - for outflows |
| Ratios.Lower | web/src/components/FinancialDashboard.jsx:604 | lower-casing keeps the length and maps each character |
| Ratios.FindEmergencyFund | web/src/components/FinancialDashboard.jsx:604 | finds the first asset whose lower-cased name contains 'emergency', or none iff there is none |
| Ratios.CancelAlertIff | web/src/components/FinancialDashboard.jsx:578-586 | the warning appears iff a subscription is flagged cancel, and its savings is the sum of the flagged amounts |
| Ratios.LowSavingsAlertIff | web/src/components/FinancialDashboard.jsx:589-601 | the danger alert appears iff the savings rate is below 10 |
| Ratios.EmergencyAlertIff | web/src/components/FinancialDashboard.jsx:604-613 | the info alert appears iff the first emergency fund has a truthy goal and its progress is below 100 |
| Ratios.EmergencyProgressNumeric | web/src/components/FinancialDashboard.jsx:606 | a numeric goal above the balance gives progress balance/goal x 100 < 100 |
| Ratios.NonNumericGoalNoAlert | web/src/components/FinancialDashboard.jsx:606-607 | a goal that does not convert to a number gives NaN progress and no alert |
| Handlers.Unsigned | internal/handlers/handlers.go:36 | the unsigned part of the text is a suffix of it |
| Handlers.ParseInt | internal/handlers/handlers.go:36 | `strconv.ParseInt(s, 10, 64)`: a value within int64, a range error clamped to a bound, a syntax error for "" and for text without a digit |
| Handlers.InRange | internal/handlers/handlers.go:36 | a parsed magnitude is either in range or a range error, never a syntax error |
| Handlers.ParsedOrZero | internal/handlers/handlers.go:454 | an ignored parse error gives 0; a good parse gives its value |
| Handlers.Decimal | internal/handlers/handlers.go:36 | the decimal digits of a natural number are non-empty digits |
| Handlers.DecimalValue | internal/handlers/handlers.go:36 | reading a number's decimal digits gives the number back |
| Handlers.ParseFormatRoundTrip | internal/handlers/handlers.go:36 | parsing the decimal text of any int64 gives it back |
| Handlers.ParseIntExamples | internal/handlers/handlers.go:36 | "", "abc", "+" and "1a" are syntax errors; "+7" and "-7" parse |
| Handlers.Utf8Length | internal/handlers/handlers.go:67 | Go's `len` counts UTF-8 bytes: between one and four per character |
| Handlers.NextId | internal/handlers/handlers.go:383-395 | a new row id is positive and above every existing id |
| Handlers.AuthorizeProfile | internal/handlers/handlers.go:35-55 | 400 iff the id does not parse, 403 iff it parses but the caller does not own the profile, else the owned id |
| Handlers.OwnProfileAuthorized | internal/handlers/handlers.go:35-55 | a caller's own profile id is accepted |
| Handlers.ForeignProfileForbidden | internal/handlers/handlers.go:44-47 | another user's profile id is refused with 403 |
| Handlers.EightCharactersSuffice | internal/handlers/handlers.go:63-69 | non-empty email and name with a password of 8 or more characters pass validation |
| Handlers.LengthCountsBytes | internal/handlers/handlers.go:67 | a four-character password of two-byte characters passes the 8-character check |
| Handlers.ValidNodeTypeNames | internal/handlers/handlers.go:377-380 | the accepted types are exactly the names of the six non-goal node types |
| Handlers.Coalesce | internal/handlers/handlers.go:430-437 | `COALESCE(NULLIF(?, ''), col)`: an empty value keeps the stored one |
| Handlers.UpdatedNode | internal/handlers/handlers.go:428-439 | UpdateNode keeps id, profile and type, keeps label/metadata when given '', and overwrites every other field |
| Handlers.UpdatedNodeIdempotent | internal/handlers/handlers.go:428-439 | applying the same update twice equals applying it once |
| Handlers.UpdateNodes | internal/handlers/handlers.go:438 | only the row with that id in that profile changes, and no row changes id, profile or type |
| Handlers.AfterDeleteNodeAsWritten | internal/handlers/handlers.go:457-459 | as written: every flow touching the id is deleted in any profile, and the node is deleted only in the caller's profile |
| Handlers.DeleteNodeReachesOtherProfiles | internal/handlers/handlers.go:448-465 | as written, a caller who owns profile 1 deletes a flow of profile 2 while no node is deleted (see Findings) |
| Handlers.DeleteNodeScopedExample | internal/handlers/handlers.go:448-465 | corrected, the same request changes nothing |
| Handlers.AfterDeleteNode | internal/handlers/handlers.go:448-465 | corrected: the cascade runs only when the node exists in the caller's profile, otherwise nothing changes |
| Handlers.DeleteNodeStaysInProfile | internal/handlers/handlers.go:457-459 | corrected: no flow touches a deleted node, nodes of other profiles stay, and flows between other profiles' nodes stay |
| Handlers.RetunedFlow | internal/handlers/handlers.go:547-550 | UpdateFlow sets amount, label and recurring and never the endpoints |
| Handlers.UpdateFlows | internal/handlers/handlers.go:547-550 | only the flow with that id in that profile changes, and no endpoint changes |
| Handlers.InMonthIsCalendarMonth | internal/handlers/handlers.go:587-599 | `[first of this month, first of next month)` is exactly the calendar month of today |
| Handlers.SpentIsMonthSum | internal/handlers/handlers.go:589-599 | spent is the sum of this budget's transactions dated within the month |
| Handlers.View | internal/handlers/handlers.go:614-617 | remaining = budgeted - spent, percentage = spent / budgeted x 100 iff budgeted > 0, else 0 |
| Handlers.BudgetViews | internal/handlers/handlers.go:589-620 | ListBudgets lists every budget of the requested profile and no other, each with this month's spending and the remaining and percentage derived from it |
| Handlers.Adjust | internal/handlers/handlers.go:1056-1059 | `current = current ± amount` changes only the goal with that id (also lines 1119-1122) |
| Handlers.AdjustInverse | internal/handlers/handlers.go:1056-1059 | adding and then subtracting the same amount restores every goal (also lines 1119-1122) |
| Handlers.FindContribution | internal/handlers/handlers.go:1099-1103 | the lookup finds a contribution with that id and goal, or none iff none exists |
| Handlers.AddContribution | internal/handlers/handlers.go:1047-1059 | a contribution is appended with a fresh id and the goal's current rises by its amount; the other tables stay |
| Handlers.RemoveContribution | internal/handlers/handlers.go:1112-1122 | the contribution is deleted and the goal's current falls by its stored amount; the other tables stay |
| Handlers.FreshContribution | internal/handlers/handlers.go:1047-1052 | a freshly appended contribution is found by its id, and deleting it leaves the earlier list |
| Handlers.ContributionRoundTrip | internal/handlers/handlers.go:1047-1059 | creating a contribution and then deleting it restores every table (also lines 1099-1122) |
| Handlers.Store.constructor | internal/handlers/handlers.go:25-27 | a new store is empty |
| Handlers.Store.Register | internal/handlers/handlers.go:56-111 | invalid input is refused with 400 and nothing inserted; a taken email gives 409; otherwise a user and an owner profile are added |
| Handlers.Store.DeleteProfile | internal/handlers/handlers.go:312-336 | after authorization an owner profile is refused with 403; any other profile row alone is deleted |
| Handlers.Store.CreateNode | internal/handlers/handlers.go:365-411 | an invalid type is refused with 400 and nothing inserted; otherwise one row with a fresh id is appended |
| Handlers.Store.UpdateNode | internal/handlers/handlers.go:412-447 | a bad node id gives 400; otherwise the node table becomes `UpdateNodes` of the old one |
| Handlers.Store.DeleteNodeAsWritten | internal/handlers/handlers.go:448-470 | as written: the tables become `AfterDeleteNodeAsWritten` of the old ones, with the node id parsed or 0 |
| Handlers.Store.DeleteNode | internal/handlers/handlers.go:448-470 | corrected: the tables become `AfterDeleteNode` of the old ones |
| Handlers.Store.CreateFlow | internal/handlers/handlers.go:498-533 | after authorization a flow is appended without any check of its endpoints |
| Handlers.Store.UpdateFlow | internal/handlers/handlers.go:534-558 | the flow table becomes `UpdateFlows` of the old one |
| Handlers.Store.ProfileBudgets | internal/handlers/handlers.go:589-620 | the row loop returns `BudgetViews` |
| Handlers.Store.ListBudgets | internal/handlers/handlers.go:579-623 | an authorization error is returned as such; otherwise the profile's budget views |
| Handlers.Store.CreateGoalTransaction | internal/handlers/handlers.go:1015-1081 | a missing goal gives 404 and no change; otherwise the tables become `AddContribution` of the old ones |
| Handlers.Store.DeleteGoalTransaction | internal/handlers/handlers.go:1082-1137 | a missing goal or transaction gives 404 and no change; otherwise the tables become `RemoveContribution` of the old ones |
| Handlers.Store.WithdrawContribution | internal/handlers/handlers.go:1099-1122 | reads the stored amount, deletes the contribution and subtracts that amount |
| NodeManagement.NodesForCategory | web/src/components/NodeManagement.jsx:180-204 | the category's nodes are exactly the nodes it admits, in order |
| NodeManagement.AssetsAreAccountsSavingsInvestments | web/src/components/NodeManagement.jsx:88 | the assets category holds exactly the account, savings and investment nodes (also lines 181-183) |
| NodeManagement.SubscriptionsAreMarkedExpenses | web/src/components/NodeManagement.jsx:184-194 | subscriptions are the expense nodes whose metadata has subscription === true; unparseable metadata is excluded |
| NodeManagement.UnparseableFixedExpense | web/src/components/NodeManagement.jsx:195-202 | an expense with unparseable metadata is a fixed expense iff its raw text lacks 'subscription' |
| NodeManagement.ExpenseCategoriesPartitionBooleans | web/src/components/NodeManagement.jsx:184-203 | with a boolean, null or absent subscription field an expense is in exactly one of the two categories |
| NodeManagement.TruthyNonTrueSubscriptionHidden | web/src/components/NodeManagement.jsx:189-199 | an expense whose subscription is truthy but not `true` is in neither category |
| NodeManagement.SubscriptionOneIsInNeither | web/src/components/NodeManagement.jsx:189-199 | the concrete case `subscription: 1` |
| NodeManagement.NumberOrZero | web/src/components/NodeManagement.jsx:101-103 | `parseFloat(x) \|\| 0`: the parsed number, or 0 on NaN |
| NodeManagement.PayloadTypeAccepted | web/src/components/NodeManagement.jsx:98 | the payload's type is always one the server's CreateNode accepts |
| NodeManagement.EditPayloadReproducesNode | web/src/components/NodeManagement.jsx:97-105 | saving an unchanged edit form sends the node's own fields back (also lines 151-158) |
| NodeManagement.EditOverwritesMetadata | web/src/components/NodeManagement.jsx:104-108 | editing a node outside the subscriptions category overwrites its stored metadata with "{}" and keeps its type |
| NodeManagement.NodeEditor.constructor | web/src/components/NodeManagement.jsx:10-14 | nothing is being edited and no node's flows are expanded |
| NodeManagement.NodeEditor.StartAdd | web/src/components/NodeManagement.jsx:161-172 | startAdd opens a zeroed form whose account type is the category's first type |
| NodeManagement.NodeEditor.StartEdit | web/src/components/NodeManagement.jsx:148-159 | startEdit copies the node's fields into the form |
| NodeManagement.NodeEditor.CancelEdit | web/src/components/NodeManagement.jsx:174-178 | cancelEdit clears category, edited node and form |
| NodeManagement.NodeEditor.ToggleFlows | web/src/components/NodeManagement.jsx:226-231 | toggleFlows flips only the given node's flag and leaves every other entry as it was |
| NodeManagement.NodeEditor.Save | web/src/components/NodeManagement.jsx:95-135 | an edit sends a PUT and is saved iff the PUT succeeds; an add sends a POST, fails when it is refused or the id is missing or 0, and for a budget node also posts the paired budget and is saved iff that succeeds; a save clears the editor, a failure leaves it as it was (non-ok responses throw per web/src/lib/api.js:43-68) |
| NodeManagement.FailedBudgetKeepsForm | web/src/components/NodeManagement.jsx:116-134 | a failed budget request after the node was created leaves the typed form open |
| NodeManagement.AddBudgetScenario | web/src/components/NodeManagement.jsx:110-124 | adding a budget node sends the node and then a monthly budget named after it, with its amount |
| Sankey.InflowAmount | web/src/components/SankeyDiagram.jsx:53-57 | a node with no incoming flow has inflow 0 |
| Sankey.InflowIsMaskedSum | web/src/components/SankeyDiagram.jsx:53-57 | the filter-then-sum equals the sum over all flows of the amount when the flow targets the node |
| Sankey.AddingFlowRaisesOnlyTarget | web/src/components/SankeyDiagram.jsx:53-57 | one more flow raises only its target's inflow, by its amount |
| Sankey.NodeValue | web/src/components/SankeyDiagram.jsx:453-461 | an income node shows its own amount or 0; any other node shows its inflow |
| Sankey.MaxFlow | web/src/components/SankeyDiagram.jsx:150 | maxFlow is at least 1 and every amount, and is 1 or some amount |
| Sankey.Thickness | web/src/components/SankeyDiagram.jsx:151 | thickness is at least 2 |
| Sankey.ThicknessAtMostScale | web/src/components/SankeyDiagram.jsx:150-151 | a drawn flow is never thicker than the scale (16; 20 in the archived app) |
| Sankey.ThicknessMonotone | web/src/components/SankeyDiagram.jsx:151 | thickness does not decrease as the amount grows |
| Sankey.PathOf | archive/MatrixSankey.jsx:74-86 | the path is empty iff an endpoint is unpositioned |
| Sankey.PointOnPathEnds | archive/MatrixSankey.jsx:89-104 | the point at t=0 is the path start (right edge, mid-height of the source) and at t=1 the path end; it is (0,0) with an unpositioned endpoint |
| Sankey.Place | web/src/components/SankeyDiagram.jsx:96-102 | placing a group keeps every position already assigned to a key |
| Sankey.PlaceAdds | web/src/components/SankeyDiagram.jsx:96-102 | every node of the group gets a position |
| Sankey.PlaceKeeps | web/src/components/SankeyDiagram.jsx:96-102 | an id outside the group keeps its position, or stays unpositioned |
| Sankey.PlaceGroup | web/src/components/SankeyDiagram.jsx:96-102 | the forEach loop computes `Place` |
| Sankey.PlacePosition | web/src/components/SankeyDiagram.jsx:96-102 | with unique ids the i-th node sits at stride position i |
| Sankey.SameIdSameNode | web/src/components/SankeyDiagram.jsx:97 | with unique ids two nodes with the same id are the same node |
| Sankey.FilterUniqueIds | web/src/components/SankeyDiagram.jsx:62-66 | a column of a list with unique ids has unique ids |
| Sankey.PlaceSkipsOtherKinds | web/src/components/SankeyDiagram.jsx:89-103 | placing one column does not move nodes of other columns |
| Sankey.ColumnNodes | web/src/components/SankeyDiagram.jsx:62-66 | a column holds exactly the nodes of its types |
| Sankey.ColumnsPartitionTypes | web/src/components/SankeyDiagram.jsx:62-66 | every type but goal belongs to exactly one column, and goal to none |
| Sankey.MaxNodes | web/src/components/SankeyDiagram.jsx:69-73 | maxNodes is the largest column size |
| Sankey.ColumnAtMostMax | web/src/components/SankeyDiagram.jsx:69-73 | no column is longer than maxNodes |
| Sankey.Height | web/src/components/SankeyDiagram.jsx:75-81 | height is at least 520 and at least 200 + maxNodes x (48 + gap) |
| Sankey.ColumnFits | web/src/components/SankeyDiagram.jsx:91-100 | with the column centred, every box of the column lies in [0, height] |
| Sankey.PositionNodes | web/src/components/SankeyDiagram.jsx:87-103 | the nested forEach computes `LiveLayout` |
| Sankey.PlaceColumnAdds | web/src/components/SankeyDiagram.jsx:96-102 | every node of the column is positioned |
| Sankey.PlaceColumnKeeps | web/src/components/SankeyDiagram.jsx:96-102 | an id outside the column keeps its state |
| Sankey.PlaceColumnPosition | web/src/components/SankeyDiagram.jsx:99-100 | node i of a column sits at x = column x, y = startY + i x (48 + gap) |
| Sankey.PlaceColumnSkips | web/src/components/SankeyDiagram.jsx:89-103 | placing a column leaves other columns' nodes where they were |
| Sankey.LiveLayoutKeys | web/src/components/SankeyDiagram.jsx:62-103 | every non-goal node is positioned, and an id carried only by goal nodes (or by none) is not |
| Sankey.LiveLayoutPosition | web/src/components/SankeyDiagram.jsx:89-103 | the final position of node i of a column is its stride position |
| Sankey.StrideStep | web/src/components/SankeyDiagram.jsx:100 | consecutive nodes are one stride apart |
| Sankey.StrideInCanvas | web/src/components/SankeyDiagram.jsx:80-100 | the arithmetic of centring: every box lies inside the canvas and ends before the next begins |
| Sankey.ColumnStrideFits | web/src/components/SankeyDiagram.jsx:80-100 | the same for each column's stride |
| Sankey.LiveLayoutFits | web/src/components/SankeyDiagram.jsx:80-103 | every positioned node lies within [0, height], and consecutive nodes of a column never overlap |
| Sankey.GroupNodesMembers | archive/MatrixSankey.jsx:45-63 | each archived group holds exactly the nodes of its types and keeps ids unique |
| Sankey.PlaceGroups | archive/MatrixSankey.jsx:54-71 | placing a list of groups keeps every position already assigned |
| Sankey.PositionNodesFixed | archive/MatrixSankey.jsx:52-71 | the four forEach loops compute `FixedLayout` |
| Sankey.GroupsDisjoint | archive/MatrixSankey.jsx:45-63 | no type belongs to two groups |
| Sankey.PlaceFixedAdds | archive/MatrixSankey.jsx:54-71 | every node of a group gets a position |
| Sankey.PlaceFixedKeeps | archive/MatrixSankey.jsx:54-71 | an id carried only by budget or goal nodes is never positioned by a group |
| Sankey.PlaceFixedPosition | archive/MatrixSankey.jsx:54-71 | node i of a group sits at the group's y0 + i x dy |
| Sankey.PlaceFixedSkips | archive/MatrixSankey.jsx:54-71 | placing a group leaves other groups' nodes where they were |
| Sankey.PlaceGroupsAdds | archive/MatrixSankey.jsx:54-71 | every node of any listed group is positioned |
| Sankey.PlaceGroupsKeeps | archive/MatrixSankey.jsx:54-71 | an id of budget/goal nodes only keeps its state through all groups |
| Sankey.PlaceGroupsPosition | archive/MatrixSankey.jsx:54-71 | with distinct groups, node i of a group ends at its stride position |
| Sankey.FixedLayoutAdds | archive/src/App.jsx:299-305 | every income, account, savings, investment and expense node is positioned |
| Sankey.FixedLayoutOmits | archive/src/App.jsx:294-305 | an id carried only by budget or goal nodes is not positioned |
| Sankey.BudgetNodesUnpositioned | archive/MatrixSankey.jsx:45-49 | budget nodes receive no position |
| Sankey.FixedLayoutPosition | archive/src/App.jsx:293-305 | positions: income (40, 120+80i), account (240, 140+100i), savings/investment (440, 60+50i), expenses (440, 260+45i); and MatrixSankey's constants likewise |
| Sankey.MatrixStacksOverlap | archive/MatrixSankey.jsx:65-71 | with four savings/investment nodes the fourth box overlaps the first expense box |
| Sankey.Spawned | web/src/components/SankeyDiagram.jsx:13-25 | at most one particle per flow, only for flows with amount > 0 whose draw fires, starting at progress 0 |
| Sankey.Newest | web/src/components/SankeyDiagram.jsx:30 | `slice(-60)` keeps the last min(n, length) entries in order |
| Sankey.Live | web/src/components/SankeyDiagram.jsx:27-29 | a particle is live after a tick iff it is an earlier or spawned particle advanced by its speed that has not reached the end |
| Sankey.Step | web/src/components/SankeyDiagram.jsx:27-30 | after a tick exactly the newest min(60, live) live particles remain, in order, each with progress < 1; with at most 60 live, every advanced moving particle is kept |
| Sankey.StepOrigins | web/src/components/SankeyDiagram.jsx:27-30 | every surviving particle is an advanced old particle or an advanced new one |
| Sankey.StepPreservesWellFormed | web/src/components/SankeyDiagram.jsx:19-30 | progress in [0, 1) and speed in the drawn range are kept by every step |
| Budgets.Percent | web/src/components/BudgetManager.jsx:102 | percentage is part / whole x 100 iff whole > 0, else 0 |
| Budgets.PercentAtLeast | web/src/components/BudgetManager.jsx:102 | reaching k percent means part x 100 >= k x whole |
| Budgets.PercentMonotone | web/src/components/BudgetManager.jsx:102 | more spending never lowers the percentage |
| Budgets.BarFill | web/src/components/BudgetManager.jsx:198 | the bar width is min(percentage, 100) |
| Budgets.BarFillNonNegative | web/src/components/BudgetManager.jsx:102 | for non-negative spending the width lies in [0, 100] (also line 198) |
| Budgets.ExactlyOneLabel | web/src/components/BudgetManager.jsx:137-178 | each label shows iff its status applies, and exactly one of EXCEEDED, WARNING, NOMINAL shows |
| Budgets.Derive | web/src/components/BudgetManager.jsx:100-102 | remaining + spent = budgeted, percentage as above, status and fill derived from it |
| Budgets.DeriveMatchesServer | web/src/components/BudgetManager.jsx:101-102 | the card's remaining and percentage equal the server's for the same spent |
| Budgets.StatusBySpending | web/src/components/BudgetManager.jsx:101-145 | remaining < 0 iff overspent; EXCEEDED iff spent >= budgeted; WARNING iff 80% <= spent < budgeted; a budget <= 0 is always NOMINAL |
| Budgets.StatusMonotone | web/src/components/BudgetManager.jsx:137-145 | spending more never improves the status |
| Budgets.Load | web/src/components/BudgetManager.jsx:19-28 | spent is the sum of the fetched amounts; a failed fetch gives no transactions and spent 0 |
| Budgets.LoadOneMore | web/src/components/BudgetManager.jsx:24 | one more transaction raises spent by its amount |
| Budgets.SpentOfPositiveAmounts | web/src/components/BudgetManager.jsx:24 | with positive amounts spent is non-negative, and 0 iff there are none |
| Budgets.AcceptsAmountIffPositive | web/src/components/BudgetManager.jsx:105 | `newAmount && parseFloat(newAmount) > 0` holds iff the amount parses to > 0 |
| Budgets.Credit | archive/src/App.jsx:539-541 | only budgets with the id gain the amount; length, order and the others are unchanged |
| Budgets.CreditUndo | archive/src/App.jsx:539-541 | crediting and then debiting the same amount restores the list |
| Budgets.CreditTotal | archive/src/App.jsx:539-541 | total spent rises by the amount once per budget with that id |
| Budgets.GainOnce | archive/src/App.jsx:539-541 | with distinct ids the per-budget gains sum to the amount when the id exists, else 0 |
| Budgets.CreditRaisesTotalOnce | archive/src/App.jsx:539-541 | with distinct ids total spent rises by exactly the amount, or not at all for an unknown id |
| Budgets.LocalBudgets.constructor | archive/src/App.jsx:538 | the list starts as the given budgets |
| Budgets.LocalBudgets.AddTransaction | archive/src/App.jsx:539-541 | `handleAddTransaction` replaces the list by its credit |
| Budgets.TransactionInput.constructor | web/src/components/BudgetManager.jsx:96-98 | the input starts hidden and blank |
| Budgets.TransactionInput.Open | web/src/components/BudgetManager.jsx:208-213 | the dashed button shows the input |
| Budgets.TransactionInput.Cancel | web/src/components/BudgetManager.jsx:249-254 | cancel hides the input and clears it |
| Budgets.TransactionInput.Submit | web/src/components/BudgetManager.jsx:104-123 | a post is made iff the amount parses to > 0, with that amount, the note and today; on success the fields clear and the input hides |
| Budgets.TransactionInput.SubmitLocal | archive/src/App.jsx:405-410 | the archived card credits its budget in the list iff the amount parses to > 0, then clears |
| Budgets.Progress | web/src/components/GoalsManager.jsx:245-302 | goal percentage is current / target x 100 iff target > 0, else 0; remaining = target - current; the bar never exceeds 100 |
| Budgets.GoalReached | web/src/components/GoalsManager.jsx:245-302 | with a positive target, 100% is reached iff nothing remains, iff the bar is full |
| Budgets.EditGoalForm | web/src/components/GoalsManager.jsx:76-85 | the edit form copies the goal, with deadline '' and priority 1 when absent |
| Budgets.Resubmitted | internal/handlers/handlers.go:947-950 | after an unchanged edit is saved the server keeps the goal's id, name, target and current; an empty deadline is dropped, a zero priority becomes 1, and the colour becomes empty because the form (GoalsManager.jsx:76-85) carries none |
| Budgets.EditRoundTrip | web/src/components/GoalsManager.jsx:52-85 | with a set priority and a non-empty deadline, an unchanged edit keeps every field but the colour, which it clears; the goal comes back unchanged iff it had no colour (UPDATE at handlers.go:947-950) |
| Budgets.AmountField | web/src/components/GoalsManager.jsx:175 | a target field that does not parse becomes 0 |
| Budgets.AddDisabledIffRefused | web/src/components/GoalsManager.jsx:89-90 | the Add button is disabled exactly when the handler would refuse the amount (also line 326) |
| Budgets.GoalsPanel.constructor | web/src/components/GoalsManager.jsx:9-20 | no goal is edited, the form is hidden and blank, no contribution is open |
| Budgets.GoalsPanel.OpenAdd | web/src/components/GoalsManager.jsx:136-141 | "Add Goal" shows a blank form for a new goal |
| Budgets.GoalsPanel.Edit | web/src/components/GoalsManager.jsx:76-86 | `handleEdit` fills the form from the goal and shows it |
| Budgets.GoalsPanel.CloseForm | web/src/components/GoalsManager.jsx:230-234 | cancel hides the form and forgets the edited goal, keeping the typed form |
| Budgets.GoalsPanel.SetTarget | web/src/components/GoalsManager.jsx:173-176 | the target field stores `parseFloat(text) \|\| 0` |
| Budgets.GoalsPanel.Save | web/src/components/GoalsManager.jsx:50-64 | a PUT when editing, else a POST; on success the form resets to name '', target 0, current 0, deadline '', priority 1 |
| Budgets.GoalsPanel.OpenContribution | web/src/components/GoalsManager.jsx:267-270 | opening a contribution selects the goal with an empty amount |
| Budgets.GoalsPanel.Contribute | web/src/components/GoalsManager.jsx:88-104 | a post is made iff the amount parses to > 0, with note 'Manual contribution'; on success the contribution closes and clears |
| App.DashboardTotals | web/src/App.jsx:53-68 | the four figures are the three totals and netSurplus = income - expenses |
| App.IncomeMatchesStatement | web/src/App.jsx:53-55 | Net Income equals the total income of the financial statement of the same nodes |
| App.AssetsMatchStatement | web/src/App.jsx:57-59 | Total Assets equals the statement's total assets |
| App.IncomeOneMore | archive/src/App.jsx:512 | one more node raises Net Income by its amount or 0 if it is income, else not at all |
| App.ExpensesOneMore | web/src/App.jsx:61-66 | one more flow raises Monthly Expenses by its amount iff its target exists and is expense or budget; a flow to an unknown node is ignored |
| App.SurplusOneMore | web/src/App.jsx:68 | an expense flow lowers Net Surplus by its amount |
| App.MountKeysDistinct | web/src/App.jsx:122 | `nodes-${k}` keys are equal iff the counters are |
| App.ManageItems.constructor | web/src/App.jsx:115 | the counter starts at 0 |
| App.ManageItems.HandleUpdate | web/src/App.jsx:117-119 | handleUpdate raises the counter by exactly 1, so the screen remounts under a new key |
| App.RenderView | web/src/App.jsx:138-158 | the placeholder iff there is no active profile; each screen receives the active profile; an unknown view id gives the dashboard |
| App.LiveNavDistinctScreens | web/src/App.jsx:131-157 | the four navigation ids lead to four different screens |
| App.ArchiveRenderView | archive/src/App.jsx:575-583 | flow, budgets and goals each have their own view; any other id gives the dashboard |

## Left out

- Rendering: JSX markup, CSS, hover and expand toggles that only affect display, SVG filters, keyframes, and the number formatting (`toFixed`, `toLocaleString`).
- Animation and randomness: `AnimatedNumber`, the clock, matrix rain, and `Math.random`. In the particle step the random draws are an input, and particle ids, characters and opacities are not modelled.
- Network and session: the API wrapper, the `useEffect` loaders, and the `AuthContext` login, storage and default-profile rule. Each request a handler sends is a returned value; its outcome (`ok`, a created id, a fetched list) is a parameter.
- Budgets.Load: loading all budgets with `Promise.all` and `data || []` is not modelled. Only the per-budget step is.
- Crypto and tokens: bcrypt, token hashing, random tokens and JWT generation. Register stores users without a hash.
- SQL: DDL, migrations, row scanning, and `ORDER BY`/`LIMIT`. Tables are sequences and handlers are functions on them.
- Handlers.NextId: SQLite AUTOINCREMENT never reuses an id once deleted; the model uses one more than the largest present id.
- SQLite foreign keys are not enabled by the server, so the schema's ON DELETE CASCADE clauses have no effect and are not modelled.
- Request bodies that fail to parse (400 before any change) are not modelled. Each request arrives decoded.
- Wall-clock time: "today" is a parameter of ListBudgets and of the posts. ListGoals' days remaining and monthly need are not modelled.
- Handlers.Store.CreateFlow: the server accepts any endpoints; the connection rules live only in `FlowRules`.
- Non-core CRUD handlers (profiles list/create/update, budgets, budget transactions, goals other than contributions, the dashboard and forecast stubs) are not modelled.
- Js.ParseFloat: leading whitespace, exponents, "Infinity" and hexadecimal forms are not modelled; neither is Number()'s whitespace trimming.
- Js.Round: `Math.round` is floor(x + 0.5) on exact reals; IEEE rounding of intermediate results is not modelled.
- Ratios.Lower: lower-casing is ASCII only.
- Ratios.Progress: an object-valued metadata goal converts to NaN; other object coercions are not modelled.
- Statements.MetaOrEmpty: metadata that parses to JSON `null` or to a non-object is not distinguished from `{}`. For a non-object the source reads every property as undefined, which is what `{}` gives. For `null` the sources differ. The statement transformer reads `metadata.subscription` outside its `try` (web/src/components/FinancialDashboard.jsx:692-701), so `"null"` throws there and the statement is never built; the model books a fixed expense instead. In the node-management filters the read is inside the `try` (web/src/components/NodeManagement.jsx:187-200), and the catch branches give the same categories as `{}`.
- Sankey.PathOf: only whether the path is empty is modelled, not the SVG path text.
- The live Sankey's empty-nodes placeholder is not modelled (it only renders text).
- Budgets.Derive: `budget.spent || 0` on NaN is not modelled; spent is always a number here.
- Budgets.GoalsPanel: the priority select's `parseInt` and the name, current and deadline fields' onChange handlers are not modelled; only the target field is.
- Numbers are unbounded reals and int64 limits appear only in ParseInt; float overflow is not modelled.

## Findings

| source | as written | input that shows it | evidently intended | confidence | as-written member | corrected member |
|---|---|---|---|---|---|---|
| internal/handlers/handlers.go:454-459 | DeleteNode deletes every flow touching the node id in any profile, then deletes the node only within the caller's profile | a caller who owns profile 1 deletes node 7, which belongs to profile 2: the flows of node 7 in profile 2 are removed and node 7 stays | the cascade applies only to a node that exists in the caller's profile | not executed | Handlers.DeleteNodeReachesOtherProfiles, Handlers.Store.DeleteNodeAsWritten | Handlers.AfterDeleteNode, Handlers.DeleteNodeStaysInProfile, Handlers.Store.DeleteNode |
| web/src/components/FinancialDashboard.jsx:139-140, 516-520 | RatioBar is red when value > danger; the savings-rate bar passes warning 10 and danger 5, so any rate above 5% is red | income 1, expenses 0.8: a 20% savings rate is drawn red | for the savings rate, lower is worse: red below 5, amber below 10, which matches the low-savings alert at < 10 | not executed | Ratios.HealthySavingsRateShownRed, Ratios.Bars | Ratios.SavingsRateColorMatchesAlert, Ratios.CorrectedBars |
