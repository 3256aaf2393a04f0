// The node-management screen (web/src/components/NodeManagement.jsx): five
// UI categories that select nodes by type and parsed metadata, the form that
// adds or edits a node of a category, the requests its Save button sends,
// and the per-node "show flows" toggles.

module NodeManagement {
  import opened Js
  import opened Records
  import Seqs
  import Substring
  import Handlers

  /** The five entries of `categories`. */
  datatype Category = IncomeSources | FixedExpenses | Subscriptions | Budgets | Assets

  /** Only the assets category has a `types` list; the others have one `type`. */
  predicate HasTypes(c: Category) { c == Assets }

  /** `category.types` of the assets category. */
  const AssetTypes: seq<NodeType> := [Account, Savings, Investment]

  /** `category.type`, or for the assets category its first type `types[0]`. */
  function DefaultType(c: Category): NodeType
  {
    match c
    case IncomeSources => Income
    case FixedExpenses => Expense
    case Subscriptions => Expense
    case Budgets => Budget
    case Assets => AssetTypes[0]
  }

  /** `JSON.stringify(category.metadata || {})`: only subscriptions carry a flag. */
  function MetadataText(c: Category): string
  {
    if c == Subscriptions then "{\"subscription\":true}" else "{}"
  }

  // ---------------------------------------------------------------------
  // getNodesForCategory
  // ---------------------------------------------------------------------

  /** `meta.subscription === true` after a successful parse. */
  predicate MarkedSubscription(n: Node)
  {
    n.meta.Parsed? && n.meta.subscription == Bool(true)
  }

  /** The test of the other categories: `!meta.subscription` after a
      successful parse, and when the parse throws, the raw metadata text does
      not contain "subscription". */
  predicate UnmarkedSubscription(n: Node)
  {
    match n.meta
    case Parsed(sub, _, _, _) => !Truthy(sub)
    case Unparseable(raw) => !Substring.Occurs(raw, "subscription")
  }

  /** Whether getNodesForCategory(c) lists n. */
  predicate InCategory(c: Category, n: Node)
  {
    if HasTypes(c) then n.kind in AssetTypes
    else if c == Subscriptions then n.kind == Expense && MarkedSubscription(n)
    else n.kind == DefaultType(c) && UnmarkedSubscription(n)
  }

  function CategoryTest(c: Category): Node -> bool
  {
    (n: Node) => InCategory(c, n)
  }

  /** getNodesForCategory: the nodes of the category, in their original order. */
  function NodesForCategory(c: Category, nodes: seq<Node>): (r: seq<Node>)
    ensures |r| <= |nodes|
    ensures forall n :: n in r <==> n in nodes && InCategory(c, n)
  {
    Seqs.Filter(nodes, CategoryTest(c))
  }

  /** The assets category lists exactly the account, savings and investment nodes. */
  lemma AssetsAreAccountsSavingsInvestments(nodes: seq<Node>, n: Node)
    ensures n in NodesForCategory(Assets, nodes) <==>
              n in nodes && (n.kind == Account || n.kind == Savings || n.kind == Investment)
  {
  }

  /** The subscriptions category lists expense nodes whose parsed metadata has
      `subscription: true`; a node with unparseable metadata is never listed. */
  lemma SubscriptionsAreMarkedExpenses(nodes: seq<Node>, n: Node)
    ensures n in NodesForCategory(Subscriptions, nodes) <==>
              n in nodes && n.kind == Expense && n.meta.Parsed? && n.meta.subscription == Bool(true)
    ensures n.meta.Unparseable? ==> n !in NodesForCategory(Subscriptions, nodes)
  {
  }

  /** An expense node whose metadata does not parse is a fixed expense exactly
      when its raw text lacks the word "subscription". */
  lemma UnparseableFixedExpense(nodes: seq<Node>, n: Node)
    requires n in nodes && n.kind == Expense && n.meta.Unparseable?
    ensures n in NodesForCategory(FixedExpenses, nodes) <==> !Substring.Occurs(n.meta.raw, "subscription")
  {
  }

  /** When an expense node's subscription value is a boolean or absent, the two
      expense categories split it: it is in exactly one of them. */
  lemma ExpenseCategoriesPartitionBooleans(nodes: seq<Node>, n: Node)
    requires n in nodes && n.kind == Expense && n.meta.Parsed?
    requires n.meta.subscription.Bool? || n.meta.subscription == Undefined || n.meta.subscription == Null
    ensures (n in NodesForCategory(FixedExpenses, nodes)) != (n in NodesForCategory(Subscriptions, nodes))
  {
  }

  /** A truthy subscription value other than `true` (the number 1, the string
      "yes") hides an expense node from both expense categories. */
  lemma TruthyNonTrueSubscriptionHidden(nodes: seq<Node>, n: Node)
    requires n in nodes && n.kind == Expense && n.meta.Parsed?
    requires Truthy(n.meta.subscription) && n.meta.subscription != Bool(true)
    ensures n !in NodesForCategory(FixedExpenses, nodes)
    ensures n !in NodesForCategory(Subscriptions, nodes)
  {
  }

  /** The same with the metadata `{"subscription": 1}`. */
  lemma SubscriptionOneIsInNeither()
    ensures
      var n := Node(3, Expense, "Gym", "", Some(30.0), None, None, Parsed(Number(1.0), Undefined, Undefined, Undefined));
      n !in NodesForCategory(FixedExpenses, [n]) && n !in NodesForCategory(Subscriptions, [n])
  {
  }

  // ---------------------------------------------------------------------
  // The save payload
  // ---------------------------------------------------------------------

  /** `formData` while a form is open: text fields, numeric fields (a number
      the program put there, or text typed into the input) and the type
      selector's value. */
  datatype FormData = FormData(
    name: string, institution: string,
    amount: NumText, balance: NumText, apy: NumText,
    accountType: string)

  /** `parseFloat(x) || 0`: NaN and 0 both become 0. */
  function NumberOrZero(t: NumText): (r: real)
    ensures ParseText(t).Some? ==> r == ParseText(t).value
    ensures ParseText(t).None? ==> r == 0.0
  {
    match ParseText(t)
    case Some(v) => if v != 0.0 then v else 0.0
    case None => 0.0
  }

  /** The `type` of the payload: `formData.accountType || 'savings'` for the
      assets category, the category's own type otherwise. */
  function PayloadType(c: Category, accountType: string): string
  {
    if HasTypes(c) then (if accountType != "" then accountType else "savings")
    else TypeName(DefaultType(c))
  }

  /** The body handleSave sends. budgeted and goal are not part of it, so the
      server decodes them as 0. */
  function Payload(c: Category, f: FormData): Handlers.NodeFields
  {
    Handlers.NodeFields(
      PayloadType(c, f.accountType), f.name, f.institution,
      NumberOrZero(f.amount), NumberOrZero(f.balance), NumberOrZero(f.apy), 0.0, 0.0,
      MetadataText(c))
  }

  /** Every payload passes CreateNode's type check, unless the assets form's
      type selector holds something other than an asset type or nothing. */
  lemma PayloadTypeAccepted(c: Category, f: FormData)
    requires HasTypes(c) ==> f.accountType in {"", "account", "savings", "investment"}
    ensures Handlers.ValidNodeType(Payload(c, f).kind)
  {
  }

  /** The form startAdd opens: empty text, zero numbers, the category's first type. */
  function AddForm(c: Category): FormData
  {
    FormData("", "", Shown(0.0), Shown(0.0), Shown(0.0), TypeName(DefaultType(c)))
  }

  /** The form startEdit opens: the node's fields, absent numbers as 0. */
  function EditForm(n: Node): FormData
  {
    FormData(n.name, n.institution, Shown(OrZero(n.amount)), Shown(OrZero(n.balance)), Shown(OrZero(n.apy)), TypeName(n.kind))
  }

  /** Saving an edit form unchanged sends the node's own fields back; the
      metadata is replaced by the category's, and budgeted and goal by 0. */
  lemma EditPayloadReproducesNode(n: Node, c: Category)
    ensures Payload(c, EditForm(n)) == Handlers.NodeFields(
      if HasTypes(c) then TypeName(n.kind) else TypeName(DefaultType(c)),
      n.name, n.institution, OrZero(n.amount), OrZero(n.balance), OrZero(n.apy), 0.0, 0.0,
      MetadataText(c))
  {
    assert TypeName(n.kind) != "";
  }

  /** The server's UpdateNode then overwrites the stored metadata with "{}"
      for every category but subscriptions, which drops keys such as a
      subscription's cancel flag or an asset's goal. */
  lemma EditOverwritesMetadata(row: Handlers.NodeRow, c: Category, f: FormData)
    requires c != Subscriptions
    ensures Handlers.UpdatedNode(row, Payload(c, f)).fields.metadata == "{}"
    ensures Handlers.UpdatedNode(row, Payload(c, f)).fields.kind == row.fields.kind
  {
  }

  // ---------------------------------------------------------------------
  // The component's state
  // ---------------------------------------------------------------------

  /** A request handleSave sends. */
  datatype Request =
    | PutNode(id: int, body: Handlers.NodeFields)
    | PostNode(body: Handlers.NodeFields)
    | PostBudget(node: int, name: string, budgeted: real, period: string)

  class NodeEditor {
    /** `activeCategory`, `editingNode`, `formData` (None is `{}`) and `expandedNodeFlows`. */
    var active: Option<Category>
    var editing: Option<Node>
    var form: Option<FormData>
    var expanded: map<int, bool>

    constructor ()
      ensures active == None && editing == None && form == None && expanded == map[]
    {
      active := None;
      editing := None;
      form := None;
      expanded := map[];
    }

    /** `!!expandedNodeFlows[id]`: an id never toggled counts as collapsed. */
    predicate IsExpanded(id: int)
      reads this
    {
      id in expanded && expanded[id]
    }

    /** startAdd: opens the category's form blank and zeroed, with the type
        selector on the category's first type. */
    method StartAdd(c: Category)
      modifies this
      ensures active == Some(c) && editing == None && form == Some(AddForm(c))
      ensures expanded == old(expanded)
    {
      active := Some(c);
      editing := None;
      form := Some(AddForm(c));
    }

    /** startEdit: opens the category's form filled from the node. */
    method StartEdit(n: Node, c: Category)
      modifies this
      ensures active == Some(c) && editing == Some(n) && form == Some(EditForm(n))
      ensures expanded == old(expanded)
    {
      editing := Some(n);
      active := Some(c);
      form := Some(EditForm(n));
    }

    /** cancelEdit: closes the form and forgets the node and the form data. */
    method CancelEdit()
      modifies this
      ensures active == None && editing == None && form == None
      ensures expanded == old(expanded)
    {
      active := None;
      editing := None;
      form := None;
    }

    /** toggleFlows: flips the given node's flag and leaves every other entry as it was. */
    method ToggleFlows(id: int)
      modifies this
      ensures IsExpanded(id) == !old(IsExpanded(id))
      ensures id in expanded
      ensures forall k :: k != id ==> (k in expanded <==> k in old(expanded))
      ensures forall k :: k != id && k in expanded ==> expanded[k] == old(expanded)[k]
      ensures active == old(active) && editing == old(editing) && form == old(form)
    {
      expanded := expanded[id := !IsExpanded(id)];
    }

    /** handleSave with a form open. An edit sends one PUT. A new node is
        POSTed; `created` is the `id` of the reply, and a missing or zero id
        aborts the save. A new budget node is paired with a monthly budget of
        the same name and amount. `nodeOk` and `budgetOk` say whether the
        server answered the node request and the budget request with a
        success status: api.put and api.post throw otherwise, and the catch
        only alerts. A save that goes through closes the form; one that
        throws leaves it open. */
    method Save(c: Category, nodeOk: bool, created: Option<int>, budgetOk: bool)
      returns (sent: seq<Request>, saved: bool)
      requires form.Some?
      modifies this
      ensures var p := Payload(c, old(form).value);
        && (old(editing).Some? ==> sent == [PutNode(old(editing).value.id, p)] && (saved <==> nodeOk))
        && (old(editing).None? && (!nodeOk || created.None? || created.value == 0) ==> sent == [PostNode(p)] && !saved)
        && (old(editing).None? && nodeOk && created.Some? && created.value != 0 ==>
              && sent == [PostNode(p)] + (if p.kind == "budget" then [PostBudget(created.value, p.name, p.amount, "monthly")] else [])
              && (saved <==> p.kind != "budget" || budgetOk))
      ensures saved ==> active == None && editing == None && form == None
      ensures !saved ==> active == old(active) && editing == old(editing) && form == old(form)
      ensures expanded == old(expanded)
    {
      var p := Payload(c, form.value);
      if editing.Some? {
        sent := [PutNode(editing.value.id, p)];
        if !nodeOk {
          return sent, false;
        }
      } else {
        sent := [PostNode(p)];
        if !nodeOk || created.None? || created.value == 0 {
          return sent, false;
        }
        if p.kind == "budget" {
          sent := sent + [PostBudget(created.value, p.name, p.amount, "monthly")];
          if !budgetOk {
            return sent, false;
          }
        }
      }
      active := None;
      editing := None;
      form := None;
      saved := true;
    }
  }

  /** Adding a budget node: the budget category's form, once saved with the
      server's new id, sends the node and then its budget, named and sized
      like the node. */
  method AddBudgetScenario() returns (sent: seq<Request>)
    ensures sent == [
      PostNode(Handlers.NodeFields("budget", "Groceries", "", 400.0, 0.0, 0.0, 0.0, 0.0, "{}")),
      PostBudget(12, "Groceries", 400.0, "monthly")]
  {
    var editor := new NodeEditor();
    editor.StartAdd(Budgets);
    editor.form := Some(editor.form.value.(name := "Groceries", amount := Shown(400.0)));
    var saved;
    sent, saved := editor.Save(Budgets, true, Some(12), true);
  }

  /** A budget node whose budget request fails: the node has been created,
      but the throw leaves the form open with what the user typed. */
  method FailedBudgetKeepsForm() returns (sent: seq<Request>, saved: bool, form: Option<FormData>)
    ensures !saved && |sent| == 2 && sent[1].PostBudget?
    ensures form.Some? && form.value.name == "Groceries"
  {
    var editor := new NodeEditor();
    editor.StartAdd(Budgets);
    editor.form := Some(editor.form.value.(name := "Groceries", amount := Shown(400.0)));
    sent, saved := editor.Save(Budgets, true, Some(12), false);
    form := editor.form;
  }
}
