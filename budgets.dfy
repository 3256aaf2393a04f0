// Budgets and savings goals on the client: the derived figures of a budget
// (web/src/components/BudgetManager.jsx and the BudgetItem of
// archive/src/App.jsx), the form that adds a transaction to a budget, the
// archived budgets list that credits a transaction locally, and the goal
// screen (web/src/components/GoalsManager.jsx) with its form and
// contribution input.

module Budgets {
  import opened Js
  import Seqs
  import Handlers

  // ---------------------------------------------------------------------
  // Shared arithmetic: a guarded percentage and a capped progress bar
  // ---------------------------------------------------------------------

  /** `whole > 0 ? (part / whole) * 100 : 0`. */
  function Percent(part: real, whole: real): (r: real)
    ensures whole > 0.0 ==> r * whole == part * 100.0
    ensures whole <= 0.0 ==> r == 0.0
  {
    if whole > 0.0 then (part / whole) * 100.0 else 0.0
  }

  /** With a positive whole, the percentage reaches k exactly when the part
      reaches k hundredths of the whole. */
  lemma PercentAtLeast(part: real, whole: real, k: real)
    requires whole > 0.0
    ensures Percent(part, whole) >= k <==> part * 100.0 >= k * whole
  {
    var r := Percent(part, whole);
    assert r * whole == part * 100.0;
    if r >= k {
      assert (r - k) * whole >= 0.0;
    } else {
      assert (k - r) * whole > 0.0;
    }
  }

  /** A larger part never gives a smaller percentage. */
  lemma PercentMonotone(a: real, b: real, whole: real)
    requires a <= b
    ensures Percent(a, whole) <= Percent(b, whole)
  {
    if whole > 0.0 {
      var q := (b - a) / whole;
      assert q * whole == b - a;
      assert q >= 0.0;
      assert b / whole - a / whole == q;
    }
  }

  /** `Math.min(percentage, 100)`: the filled share of a progress bar. */
  function BarFill(p: real): (r: real)
    ensures r <= 100.0
    ensures r == p <==> p <= 100.0
    ensures p > 100.0 ==> r == 100.0
  {
    if p < 100.0 then p else 100.0
  }

  /** A bar is never drawn with negative width when nothing negative is measured. */
  lemma BarFillNonNegative(part: real, whole: real)
    requires part >= 0.0
    ensures 0.0 <= BarFill(Percent(part, whole)) <= 100.0
  {
    if whole > 0.0 {
      assert part / whole >= 0.0;
    }
  }

  // ---------------------------------------------------------------------
  // A budget's derived figures and status
  // ---------------------------------------------------------------------

  /** The three states a budget is shown in. */
  datatype Status = Nominal | Warning | Exceeded

  /** getStatusColor and getBarColor: red from 100, amber from 80, green
      (emerald in the archived screen) below. */
  function StatusOf(p: real): Status
  {
    if p >= 100.0 then Exceeded else if p >= 80.0 then Warning else Nominal
  }

  /** The three labels, each guarded by its own test. */
  predicate ShowsExceeded(p: real) { p >= 100.0 }
  predicate ShowsWarning(p: real) { p >= 80.0 && p < 100.0 }
  predicate ShowsNominal(p: real) { p < 80.0 }

  /** Exactly one label is shown, and it is the one the colours give. */
  lemma ExactlyOneLabel(p: real)
    ensures ShowsExceeded(p) <==> StatusOf(p) == Exceeded
    ensures ShowsWarning(p) <==> StatusOf(p) == Warning
    ensures ShowsNominal(p) <==> StatusOf(p) == Nominal
    ensures !(ShowsExceeded(p) && ShowsWarning(p)) && !(ShowsExceeded(p) && ShowsNominal(p)) && !(ShowsWarning(p) && ShowsNominal(p))
    ensures ShowsExceeded(p) || ShowsWarning(p) || ShowsNominal(p)
  {
  }

  /** The figures a budget row shows. */
  datatype Derived = Derived(spent: real, remaining: real, percentage: real, status: Status, fill: real)

  /** `remaining = budgeted - spent` (possibly negative), the guarded
      percentage, its status and the bar width. */
  function Derive(budgeted: real, spent: real): (d: Derived)
    ensures d.spent == spent && d.remaining + d.spent == budgeted
    ensures d.percentage == Percent(spent, budgeted)
    ensures d.status == StatusOf(d.percentage) && d.fill == BarFill(d.percentage)
  {
    var p := Percent(spent, budgeted);
    Derived(spent, budgeted - spent, p, StatusOf(p), BarFill(p))
  }

  /** The client derives the same remaining amount and percentage as the
      server's ListBudgets does from the same spent amount. */
  lemma DeriveMatchesServer(b: Handlers.BudgetRow, spent: real)
    ensures Handlers.View(b, spent).remaining == Derive(b.budgeted, spent).remaining
    ensures Handlers.View(b, spent).percentage == Derive(b.budgeted, spent).percentage
  {
  }

  /** How spending relates to the status: for a positive budget it is
      exceeded exactly when the spending reaches the budget and in warning
      exactly from 80% of it; remaining is negative exactly when the budget
      is overspent. A budget of 0 or less always shows nominal. */
  lemma StatusBySpending(budgeted: real, spent: real)
    ensures Derive(budgeted, spent).remaining < 0.0 <==> spent > budgeted
    ensures budgeted > 0.0 ==> (Derive(budgeted, spent).status == Exceeded <==> spent >= budgeted)
    ensures budgeted > 0.0 ==>
      (Derive(budgeted, spent).status == Warning <==> 0.8 * budgeted <= spent < budgeted)
    ensures budgeted <= 0.0 ==> Derive(budgeted, spent).status == Nominal
  {
    if budgeted > 0.0 {
      PercentAtLeast(spent, budgeted, 100.0);
      PercentAtLeast(spent, budgeted, 80.0);
    }
  }

  /** More spending never moves a budget to a calmer status. */
  lemma StatusMonotone(budgeted: real, a: real, b: real)
    requires a <= b
    ensures Derive(budgeted, a).status == Exceeded ==> Derive(budgeted, b).status == Exceeded
    ensures Derive(budgeted, a).status == Warning ==> Derive(budgeted, b).status != Nominal
  {
    PercentMonotone(a, b, budgeted);
  }

  // ---------------------------------------------------------------------
  // Loading a budget's transactions
  // ---------------------------------------------------------------------

  datatype Budget = Budget(id: int, name: string, budgeted: real)

  datatype BudgetTx = BudgetTx(id: int, amount: real, note: string)

  function TxAmount(t: BudgetTx): real { t.amount }

  /** The outcome of the transactions request: the list, or a thrown error. */
  datatype Fetch<T> = Fetched(value: T) | Failed

  /** A budget with the transactions loadBudgets attached to it. */
  datatype LoadedBudget = LoadedBudget(budget: Budget, transactions: seq<BudgetTx>, spent: real)

  /** loadBudgets for one budget: spent is the sum of the fetched amounts; a
      failed fetch leaves no transactions and spent 0. */
  function Load(b: Budget, fetch: Fetch<seq<BudgetTx>>): (r: LoadedBudget)
    ensures r.budget == b
    ensures fetch.Fetched? ==> r.transactions == fetch.value
    ensures fetch.Failed? ==> r.transactions == [] && r.spent == 0.0
    ensures r.spent == Seqs.Sum(r.transactions, TxAmount)
  {
    match fetch
    case Fetched(txs) => LoadedBudget(b, txs, Seqs.Sum(txs, TxAmount))
    case Failed => LoadedBudget(b, [], 0.0)
  }

  /** One more fetched transaction raises spent by its amount. */
  lemma LoadOneMore(b: Budget, txs: seq<BudgetTx>, t: BudgetTx)
    ensures Load(b, Fetched(txs + [t])).spent == Load(b, Fetched(txs)).spent + t.amount
  {
    Seqs.SumSnoc(txs, t, TxAmount);
  }

  /** Transactions are only ever posted with a positive amount; over such a
      list spent is never negative, and it is 0 only for an empty list. */
  lemma {:induction false} SpentOfPositiveAmounts(txs: seq<BudgetTx>)
    requires forall t :: t in txs ==> t.amount > 0.0
    ensures Seqs.Sum(txs, TxAmount) >= 0.0
    ensures Seqs.Sum(txs, TxAmount) == 0.0 <==> txs == []
  {
    if txs != [] {
      var init := txs[..|txs| - 1];
      assert txs[|txs| - 1] in txs;
      forall t | t in init
        ensures t.amount > 0.0
      {
        var k :| 0 <= k < |init| && init[k] == t;
        assert txs[k] == t;
      }
      SpentOfPositiveAmounts(init);
    }
  }

  // ---------------------------------------------------------------------
  // Adding a transaction to a budget
  // ---------------------------------------------------------------------

  /** `newAmount && parseFloat(newAmount) > 0`. */
  predicate AcceptsAmount(t: NumText)
  {
    Filled(t) && PositiveText(t)
  }

  /** The emptiness test is implied by the parse: exactly the positive amounts pass. */
  lemma AcceptsAmountIffPositive(t: NumText)
    ensures AcceptsAmount(t) <==> PositiveText(t)
  {
  }

  /** The body the live screen posts for a new transaction. */
  datatype TxPost = TxPost(budget: int, amount: real, note: string, date: string)

  /** A budget of the archived screen, with its spent amount held locally. */
  datatype LocalBudget = LocalBudget(id: int, name: string, budgeted: real, spent: real)

  function LocalSpent(b: LocalBudget): real { b.spent }

  /** The entry handleAddTransaction writes for one budget. */
  function CreditOne(id: int, amount: real): LocalBudget -> LocalBudget
  {
    (b: LocalBudget) => if b.id == id then b.(spent := b.spent + amount) else b
  }

  /** `prev.map(b => b.id === budgetId ? {...b, spent: b.spent + amount} : b)`. */
  function Credit(bs: seq<LocalBudget>, id: int, amount: real): (r: seq<LocalBudget>)
    ensures |r| == |bs|
    ensures forall k :: 0 <= k < |bs| && bs[k].id != id ==> r[k] == bs[k]
    ensures forall k :: 0 <= k < |bs| && bs[k].id == id ==> r[k] == bs[k].(spent := bs[k].spent + amount)
  {
    Seqs.Map(bs, CreditOne(id, amount))
  }

  /** Crediting and then crediting back the same amount restores the list. */
  lemma CreditUndo(bs: seq<LocalBudget>, id: int, amount: real)
    ensures Credit(Credit(bs, id, amount), id, -amount) == bs
  {
    var r := Credit(Credit(bs, id, amount), id, -amount);
    assert |r| == |bs|;
    forall k | 0 <= k < |bs|
      ensures r[k] == bs[k]
    {
    }
  }

  /** What a credit adds to one budget's spent amount. */
  function Gain(id: int, amount: real): LocalBudget -> real
  {
    (b: LocalBudget) => if b.id == id then amount else 0.0
  }

  /** The total spent over the list rises by the amount once for every
      budget carrying the id. */
  lemma {:induction false} CreditTotal(bs: seq<LocalBudget>, id: int, amount: real)
    ensures Seqs.Sum(Credit(bs, id, amount), LocalSpent) == Seqs.Sum(bs, LocalSpent) + Seqs.Sum(bs, Gain(id, amount))
  {
    if bs != [] {
      var k := |bs| - 1;
      var init := bs[..k];
      var last := bs[k];
      var credited := CreditOne(id, amount)(last);
      assert bs == init + [last];
      CreditTotal(init, id, amount);
      Seqs.MapSnoc(init, last, CreditOne(id, amount));
      assert Credit(bs, id, amount) == Credit(init, id, amount) + [credited];
      Seqs.SumSnoc(Credit(init, id, amount), credited, LocalSpent);
      Seqs.SumSnoc(init, last, LocalSpent);
      Seqs.SumSnoc(init, last, Gain(id, amount));
    }
  }

  /** Budget ids are the primary key of the budgets table. */
  predicate DistinctIds(bs: seq<LocalBudget>)
  {
    forall i, j :: 0 <= i < j < |bs| ==> bs[i].id != bs[j].id
  }

  predicate HasBudget(bs: seq<LocalBudget>, id: int)
  {
    exists b :: b in bs && b.id == id
  }

  /** With distinct ids the amount is gained once when the id is present, never otherwise. */
  lemma {:induction false} GainOnce(bs: seq<LocalBudget>, id: int, amount: real)
    requires DistinctIds(bs)
    ensures Seqs.Sum(bs, Gain(id, amount)) == if HasBudget(bs, id) then amount else 0.0
  {
    if bs != [] {
      var k := |bs| - 1;
      var init := bs[..k];
      var last := bs[k];
      assert bs == init + [last];
      assert DistinctIds(init) by {
        forall a, b | 0 <= a < b < |init|
          ensures init[a].id != init[b].id
        {
          assert init[a] == bs[a] && init[b] == bs[b];
        }
      }
      GainOnce(init, id, amount);
      Seqs.SumSnoc(init, last, Gain(id, amount));
      if last.id == id {
        assert !HasBudget(init, id) by {
          forall b | b in init
            ensures b.id != id
          {
            var a :| 0 <= a < |init| && init[a] == b;
            assert bs[a] == b;
          }
        }
      } else {
        assert HasBudget(bs, id) <==> HasBudget(init, id) by {
          if HasBudget(bs, id) {
            var b :| b in bs && b.id == id;
            assert b != last;
            Seqs.MemberOfInit(bs, b);
          }
        }
      }
    }
  }

  /** A credit to a budget of a list with distinct ids raises the total
      spent by exactly the amount, and one to an absent id changes nothing. */
  lemma CreditRaisesTotalOnce(bs: seq<LocalBudget>, id: int, amount: real)
    requires DistinctIds(bs)
    ensures Seqs.Sum(Credit(bs, id, amount), LocalSpent) ==
      Seqs.Sum(bs, LocalSpent) + (if HasBudget(bs, id) then amount else 0.0)
  {
    CreditTotal(bs, id, amount);
    GainOnce(bs, id, amount);
  }

  /** The archived budgets view: its list of budgets. */
  class LocalBudgets {
    var budgets: seq<LocalBudget>

    constructor (initial: seq<LocalBudget>)
      ensures budgets == initial
    {
      budgets := initial;
    }

    /** handleAddTransaction: credits the amount to the budgets with that id. */
    method AddTransaction(id: int, amount: real)
      modifies this
      ensures budgets == Credit(old(budgets), id, amount)
    {
      budgets := Credit(budgets, id, amount);
    }
  }

  /** The new-transaction input of one budget row (`showInput`, `newAmount`, `newNote`). */
  class TransactionInput {
    var showInput: bool
    var amount: NumText
    var note: string

    constructor ()
      ensures !showInput && amount == Blank && note == ""
    {
      showInput := false;
      amount := Blank;
      note := "";
    }

    /** The "Add Transaction" button. */
    method Open()
      modifies this
      ensures showInput && amount == old(amount) && note == old(note)
    {
      showInput := true;
    }

    /** The close button: hides the input and clears both fields. */
    method Cancel()
      modifies this
      ensures !showInput && amount == Blank && note == ""
    {
      showInput := false;
      amount := Blank;
      note := "";
    }

    /** handleAddTransaction of the live screen: posts the parsed amount,
        the note and today's date only for a positive amount; the fields are
        cleared and the input hidden only when the post succeeds (`ok`). */
    method Submit(budget: int, today: string, ok: bool) returns (post: Option<TxPost>)
      modifies this
      ensures post.Some? <==> AcceptsAmount(old(amount))
      ensures post.Some? ==> post.value.amount > 0.0
      ensures post.Some? ==> post.value == TxPost(budget, ParseText(old(amount)).value, old(note), today)
      ensures post.Some? && ok ==> !showInput && amount == Blank && note == ""
      ensures post.None? || !ok ==> showInput == old(showInput) && amount == old(amount) && note == old(note)
    {
      if Filled(amount) && PositiveText(amount) {
        post := Some(TxPost(budget, ParseText(amount).value, note, today));
        if ok {
          amount := Blank;
          note := "";
          showInput := false;
        }
      } else {
        post := None;
      }
    }

    /** handleSubmit of the archived screen: for a positive amount, credits
        it to the budget in the local list and clears and hides the input. */
    method SubmitLocal(board: LocalBudgets, budget: int)
      modifies this, board
      ensures AcceptsAmount(old(amount)) ==>
        && board.budgets == Credit(old(board.budgets), budget, ParseText(old(amount)).value)
        && !showInput && amount == Blank && note == ""
      ensures !AcceptsAmount(old(amount)) ==>
        && board.budgets == old(board.budgets)
        && showInput == old(showInput) && amount == old(amount) && note == old(note)
    {
      if Filled(amount) && PositiveText(amount) {
        board.AddTransaction(budget, ParseText(amount).value);
        amount := Blank;
        note := "";
        showInput := false;
      }
    }
  }

  // ---------------------------------------------------------------------
  // Savings goals
  // ---------------------------------------------------------------------

  /** A goal as the client receives it; `deadline` is left out of the JSON
      when empty, `priority` may be 0, and `color` is always present. */
  datatype GoalRecord = GoalRecord(id: int, name: string, target: real, current: real,
                                   deadline: Option<string>, priority: int, color: string)

  /** A goal's progress: percentage of the target reached, the amount still
      missing and the bar width. */
  datatype GoalProgress = GoalProgress(percentage: real, remaining: real, fill: real)

  function Progress(g: GoalRecord): (r: GoalProgress)
    ensures r.percentage == Percent(g.current, g.target)
    ensures r.remaining + g.current == g.target
    ensures r.fill == BarFill(r.percentage) && r.fill <= 100.0
  {
    var p := Percent(g.current, g.target);
    GoalProgress(p, g.target - g.current, BarFill(p))
  }

  /** For a positive target, the goal shows 100% exactly when nothing remains. */
  lemma GoalReached(g: GoalRecord)
    requires g.target > 0.0
    ensures Progress(g).percentage >= 100.0 <==> Progress(g).remaining <= 0.0
    ensures Progress(g).fill == 100.0 <==> Progress(g).remaining <= 0.0
  {
    PercentAtLeast(g.current, g.target, 100.0);
  }

  /** `formData`. */
  datatype GoalForm = GoalForm(name: string, target: real, current: real, deadline: string, priority: int)

  /** The form after a save and when opening the add form. */
  const BlankGoalForm: GoalForm := GoalForm("", 0.0, 0.0, "", 1)

  /** handleEdit's form: the goal's fields, with `deadline || ''` and `priority || 1`. */
  function EditGoalForm(g: GoalRecord): (f: GoalForm)
    ensures f.name == g.name && f.target == g.target && f.current == g.current
    ensures g.deadline.Some? ==> f.deadline == g.deadline.value
    ensures g.deadline.None? ==> f.deadline == ""
    ensures f.priority != 0
    ensures g.priority != 0 ==> f.priority == g.priority
  {
    GoalForm(g.name, g.target, g.current,
      if g.deadline.Some? then g.deadline.value else "",
      if g.priority != 0 then g.priority else 1)
  }

  /** The goal the server keeps after an unchanged edit is saved. UpdateGoal
      writes every column from the request, and the form carries no colour,
      so the colour becomes the empty string; an empty deadline is left out
      of the JSON and a zero priority is sent as 1. */
  function Resubmitted(g: GoalRecord): (r: GoalRecord)
    ensures r.id == g.id && r.name == g.name && r.target == g.target && r.current == g.current
    ensures r.deadline == (if g.deadline == Some("") then None else g.deadline)
    ensures r.priority == (if g.priority == 0 then 1 else g.priority)
    ensures r.color == ""
  {
    var f := EditGoalForm(g);
    GoalRecord(g.id, f.name, f.target, f.current, if f.deadline == "" then None else Some(f.deadline), f.priority, "")
  }

  /** Opening a goal for editing and saving it unchanged keeps every field but
      the colour, when its deadline is not empty text and its priority is set;
      the goal comes back exactly as it was only when it had no colour. */
  lemma EditRoundTrip(g: GoalRecord)
    requires g.priority != 0
    requires g.deadline != Some("")
    ensures Resubmitted(g) == g.(color := "")
    ensures Resubmitted(g) == g <==> g.color == ""
  {
  }

  /** The target and current fields: `parseFloat(value) || 0`. */
  function AmountField(text: string): (r: real)
    ensures ParseFloat(text).None? ==> r == 0.0
    ensures ParseFloat(text).Some? ==> r == ParseFloat(text).value
  {
    OrZero(ParseFloat(text))
  }

  /** What Save sends: an update of the goal being edited, else a new goal. */
  datatype GoalRequest = PutGoal(id: int, form: GoalForm) | PostGoal(form: GoalForm)

  /** The body of a contribution. */
  datatype ContributionPost = ContributionPost(goal: int, amount: real, note: string, date: string)

  /** `!contributionAmount || parseFloat(contributionAmount) <= 0`: when the
      Add button is disabled. */
  predicate AddDisabled(t: NumText)
  {
    !Filled(t) || (ParseText(t).Some? && ParseText(t).value <= 0.0)
  }

  /** On a number input the button is disabled exactly when handleContribute
      would refuse the amount. */
  lemma AddDisabledIffRefused(t: NumText)
    requires NumberInputText(t)
    ensures AddDisabled(t) <==> !PositiveText(t)
  {
  }

  /** The goal screen's state. */
  class GoalsPanel {
    var editing: Option<GoalRecord>
    var showForm: bool
    var form: GoalForm
    var contributingTo: Option<int>
    var contribution: NumText

    constructor ()
      ensures editing == None && !showForm && form == BlankGoalForm
      ensures contributingTo == None && contribution == Blank
    {
      editing := None;
      showForm := false;
      form := BlankGoalForm;
      contributingTo := None;
      contribution := Blank;
    }

    /** The "Add Goal" button. */
    method OpenAdd()
      modifies this
      ensures showForm && editing == None && form == BlankGoalForm
      ensures contributingTo == old(contributingTo) && contribution == old(contribution)
    {
      showForm := true;
      editing := None;
      form := BlankGoalForm;
    }

    /** handleEdit: fills the form from the goal and opens it in edit mode. */
    method Edit(g: GoalRecord)
      modifies this
      ensures showForm && editing == Some(g) && form == EditGoalForm(g)
      ensures contributingTo == old(contributingTo) && contribution == old(contribution)
    {
      form := EditGoalForm(g);
      editing := Some(g);
      showForm := true;
    }

    /** The form's Cancel button: closes it and leaves edit mode; the form data stays. */
    method CloseForm()
      modifies this
      ensures !showForm && editing == None && form == old(form)
      ensures contributingTo == old(contributingTo) && contribution == old(contribution)
    {
      showForm := false;
      editing := None;
    }

    /** Typing into the target field. */
    method SetTarget(text: string)
      modifies this
      ensures form == old(form).(target := AmountField(text))
      ensures editing == old(editing) && showForm == old(showForm)
      ensures contributingTo == old(contributingTo) && contribution == old(contribution)
    {
      form := form.(target := AmountField(text));
    }

    /** handleSave: an update when a goal is being edited, else a creation;
        when the request succeeds the form closes and resets. */
    method Save(ok: bool) returns (req: GoalRequest)
      modifies this
      ensures old(editing).Some? ==> req == PutGoal(old(editing).value.id, old(form))
      ensures old(editing).None? ==> req == PostGoal(old(form))
      ensures ok ==> editing == None && !showForm && form == BlankGoalForm
      ensures !ok ==> editing == old(editing) && showForm == old(showForm) && form == old(form)
      ensures contributingTo == old(contributingTo) && contribution == old(contribution)
    {
      if editing.Some? {
        req := PutGoal(editing.value.id, form);
      } else {
        req := PostGoal(form);
      }
      if ok {
        editing := None;
        showForm := false;
        form := BlankGoalForm;
      }
    }

    /** The dollar button of a goal: opens its contribution input, empty. */
    method OpenContribution(goal: int)
      modifies this
      ensures contributingTo == Some(goal) && contribution == Blank
      ensures editing == old(editing) && showForm == old(showForm) && form == old(form)
    {
      contributingTo := Some(goal);
      contribution := Blank;
    }

    /** handleContribute: refuses an amount that is NaN, 0 or negative; else
        posts it as a 'Manual contribution' dated today, and when the post
        succeeds closes the input and clears the amount. */
    method Contribute(goal: int, today: string, ok: bool) returns (post: Option<ContributionPost>)
      modifies this
      ensures post.Some? <==> PositiveText(old(contribution))
      ensures post.Some? ==> post.value == ContributionPost(goal, ParseText(old(contribution)).value, "Manual contribution", today)
      ensures post.Some? ==> post.value.amount > 0.0
      ensures post.Some? && ok ==> contributingTo == None && contribution == Blank
      ensures post.None? || !ok ==> contributingTo == old(contributingTo) && contribution == old(contribution)
      ensures editing == old(editing) && showForm == old(showForm) && form == old(form)
    {
      var amount := ParseText(contribution);
      if amount.None? || amount.value == 0.0 || amount.value <= 0.0 {
        post := None;
        return;
      }
      post := Some(ContributionPost(goal, amount.value, "Manual contribution", today));
      if ok {
        contributingTo := None;
        contribution := Blank;
      }
    }
  }
}
