// Flow-connection rules of the node editor (web/src/components/FlowSection.jsx):
// two lookup tables say which node types may send money to, or receive money
// from, which others; the "add flow" form chooses a counterpart among the
// candidates those tables allow and locks the amount of a flow into an
// expense or budget node unless split mode is on. The server's CreateFlow does
// not check these rules, so this form is the only place they are enforced.

module FlowRules {
  import opened Js
  import opened Records
  import Seqs

  /** Types a node may send money to (`getValidDestinations`' table; a type
      without an entry gets `[]`). */
  function Destinations(t: NodeType): seq<NodeType>
  {
    match t
    case Income => [Account, Savings, Investment]
    case Account => [Savings, Investment, Expense, Budget]
    case Savings => [Account]
    case Investment => []
    case Expense => []
    case Budget => []
    case Goal => []
  }

  /** Types a node may receive money from (`getValidSources`' table). */
  function Sources(t: NodeType): seq<NodeType>
  {
    match t
    case Income => []
    case Account => [Income, Savings]
    case Savings => [Income, Account]
    case Investment => [Income, Account]
    case Expense => [Account]
    case Budget => [Account]
    case Goal => []
  }

  /** The source table is the exact inverse of the destination table. */
  lemma SourcesInvertDestinations(a: NodeType, b: NodeType)
    ensures b in Destinations(a) <==> a in Sources(b)
  {
  }

  /** Nodes the given node may send to: never itself, only allowed types. */
  function ValidDestinations(source: Node, nodes: seq<Node>): (r: seq<Node>)
    ensures forall n :: n in r <==> n in nodes && n.id != source.id && n.kind in Destinations(source.kind)
    ensures Destinations(source.kind) == [] ==> r == []
  {
    var r := Seqs.Filter(nodes, (n: Node) => n.id != source.id && n.kind in Destinations(source.kind));
    assert |r| > 0 ==> r[0] in r;
    r
  }

  /** Nodes the given node may receive from: never itself, only allowed types. */
  function ValidSources(dest: Node, nodes: seq<Node>): (r: seq<Node>)
    ensures forall n :: n in r <==> n in nodes && n.id != dest.id && n.kind in Sources(dest.kind)
    ensures Sources(dest.kind) == [] ==> r == []
  {
    var r := Seqs.Filter(nodes, (n: Node) => n.id != dest.id && n.kind in Sources(dest.kind));
    assert |r| > 0 ==> r[0] in r;
    r
  }

  /** A node with no table entry (a goal node) has no candidates either way. */
  lemma GoalHasNoCandidates(g: Node, nodes: seq<Node>)
    requires g.kind == Goal
    ensures ValidDestinations(g, nodes) == [] && ValidSources(g, nodes) == []
  {
  }

  /** Sending and receiving candidates mirror each other. */
  lemma CandidatesMirror(x: Node, y: Node, nodes: seq<Node>)
    requires x in nodes && y in nodes
    ensures y in ValidDestinations(x, nodes) <==> x in ValidSources(y, nodes)
  {
    SourcesInvertDestinations(x.kind, y.kind);
  }

  /** The body of the POST that creates a flow (`caption` is its `label`). */
  datatype FlowRequest = FlowRequest(from: int, to: int, amount: real, caption: string, recurring: bool)

  /** The "add flow" form of one node's flow section. */
  class FlowForm {
    /** The node whose section this is, and every node of the profile. */
    const node: Node
    const nodes: seq<Node>
    /** `addingFlow`, `flowForm.nodeId`, `flowForm.amount`, `allowSplit`. */
    var adding: bool
    var selected: Option<int>
    var amount: NumText
    var split: bool

    /** `canSendFlows`: there is some node this one may send to. */
    predicate CanSend()
    {
      |ValidDestinations(node, nodes)| > 0
    }

    /** `canReceiveFlows`. */
    predicate CanReceive()
    {
      |ValidSources(node, nodes)| > 0
    }

    /** The options of the counterpart selector. */
    function Candidates(): seq<Node>
    {
      if CanSend() then ValidDestinations(node, nodes) else ValidSources(node, nodes)
    }

    /** The node the selector points at, if any. */
    function Target(): Option<Node>
      reads this
    {
      if selected.None? then None else Find(nodes, selected.value)
    }

    /** `isExpenseDestination`. */
    predicate IsExpenseDestination()
      reads this
    {
      Target().Some? && Target().value.kind in [Expense, Budget]
    }

    /** `getExpenseAmount`: the target's amount, or 0. */
    function ExpenseAmount(): real
      reads this
    {
      if Target().None? then 0.0 else OrZero(Target().value.amount)
    }

    /** `isAmountLocked`. */
    predicate IsAmountLocked()
      reads this
    {
      CanSend() && IsExpenseDestination() && !split
    }

    /** The Save button is enabled: `!(!nodeId || !amount || parseFloat(amount) <= 0)`. */
    predicate SaveEnabled()
      reads this
    {
      selected.Some? && Filled(amount) && !(ParseText(amount).Some? && ParseText(amount).value <= 0.0)
    }

    /** A flow from `from` to `to` joins this node and a different node of the
        profile in a direction the tables allow. */
    predicate Respects(from: int, to: int)
    {
      || (from == node.id && exists d :: d in nodes && d.id == to && d.id != node.id && d.kind in Destinations(node.kind))
      || (to == node.id && exists s :: s in nodes && s.id == from && s.id != node.id && s.kind in Sources(node.kind))
    }

    /** The direction rule of `handleAddFlow`: a sending node is the source. */
    function Endpoints(chosen: int): (int, int)
    {
      if CanSend() then (node.id, chosen) else (chosen, node.id)
    }

    /** Every candidate, placed by the direction rule, gives a flow the tables allow. */
    lemma CandidateRespects(c: Node)
      requires c in Candidates()
      ensures Respects(Endpoints(c.id).0, Endpoints(c.id).1)
    {
      if CanSend() {
        assert c in nodes && c.id != node.id && c.kind in Destinations(node.kind);
      } else {
        assert c in nodes && c.id != node.id && c.kind in Sources(node.kind);
      }
    }

    /** The invariant of the form: a closed form is blank with split mode off,
        the selection is always a candidate, and a locked amount shows the
        target's amount whenever that amount is positive. */
    predicate Valid()
      reads this
    {
      && NumberInputText(amount)
      && (!adding ==> selected.None? && amount == Blank && !split)
      && (selected.Some? ==> exists n :: n in Candidates() && n.id == selected.value)
      && (IsAmountLocked() && ExpenseAmount() > 0.0 ==> ParseText(amount) == Some(ExpenseAmount()))
    }

    constructor (node: Node, nodes: seq<Node>)
      ensures this.node == node && this.nodes == nodes
      ensures Valid() && !adding && selected.None? && amount == Blank && !split
    {
      this.node := node;
      this.nodes := nodes;
      adding := false;
      selected := None;
      amount := Blank;
      split := false;
    }

    /** "Add flow": the button exists only while the form is closed and the node
        has some counterpart. */
    method Open()
      requires Valid() && !adding && (CanSend() || CanReceive())
      modifies this
      ensures Valid() && adding && selected.None? && amount == Blank && !split
    {
      adding := true;
    }

    /** The selector's onChange; `choice` is None for the placeholder option.
        Picking an expense or budget target while sending, in non-split mode,
        fills the amount with that target's amount (0 when it has none). */
    method Select(choice: Option<int>)
      requires Valid() && adding
      requires choice.Some? ==> exists n :: n in Candidates() && n.id == choice.value
      modifies this
      ensures Valid() && adding && selected == choice && split == old(split)
      ensures CanSend() && !split && IsExpenseDestination() ==> amount == Shown(ExpenseAmount())
      ensures !(CanSend() && !split && IsExpenseDestination()) ==> amount == old(amount)
    {
      selected := choice;
      if CanSend() && !split && IsExpenseDestination() {
        amount := Shown(ExpenseAmount());
      }
    }

    /** The amount input's onChange; the input is disabled while the amount is locked. */
    method SetAmount(text: string)
      requires Valid() && adding && NumberInputText(Typed(text))
      modifies this
      ensures Valid() && adding && selected == old(selected) && split == old(split)
      ensures old(IsAmountLocked()) ==> amount == old(amount)
      ensures !old(IsAmountLocked()) ==> amount == Typed(text)
    {
      if !IsAmountLocked() {
        amount := Typed(text);
      }
    }

    /** Toggling the split checkbox (shown only for an expense or budget target
        while sending), followed by the effect on `allowSplit`: turning split
        mode off refills the amount only when the target amount is positive. */
    method SetSplit(on: bool)
      requires Valid() && adding && CanSend() && IsExpenseDestination() && on != split
      modifies this
      ensures Valid() && adding && selected == old(selected) && split == on
      ensures !on && ExpenseAmount() > 0.0 ==> amount == Shown(ExpenseAmount())
      ensures on || ExpenseAmount() <= 0.0 ==> amount == old(amount)
    {
      split := on;
      if !on && ExpenseAmount() > 0.0 {
        amount := Shown(ExpenseAmount());
      }
    }

    /** Clicking Save (`handleAddFlow`, behind the button's disabled state).
        A sending node is the flow's source, otherwise its target; the request
        always respects the tables, carries a positive amount, an empty label
        and `is_recurring: true`, and the form is then cleared and closed. */
    method Save() returns (req: Option<FlowRequest>)
      requires Valid() && adding
      modifies this
      ensures Valid()
      ensures req.Some? <==> old(SaveEnabled())
      ensures req.None? ==> adding && selected == old(selected) && amount == old(amount) && split == old(split)
      ensures req.Some? ==> !adding && selected.None? && amount == Blank && !split
      ensures req.Some? ==> Respects(req.value.from, req.value.to) && req.value.amount > 0.0
      ensures req.Some? ==> req.value == FlowRequest(
        Endpoints(old(selected.value)).0, Endpoints(old(selected.value)).1,
        old(ParseText(amount).value), "", true)
      ensures req.Some? && old(IsAmountLocked()) && old(ExpenseAmount()) > 0.0 ==> req.value.amount == old(ExpenseAmount())
    {
      if !SaveEnabled() {
        return None;
      }
      NumberInputFilledParses(amount);
      var chosen := selected.value;
      ghost var c :| c in Candidates() && c.id == chosen;
      CandidateRespects(c);
      var ends := Endpoints(chosen);
      req := Some(FlowRequest(ends.0, ends.1, ParseText(amount).value, "", true));
      selected := None;
      amount := Blank;
      adding := false;
      split := false;
    }

    /** Cancel: the form closes and the effect on `addingFlow` resets split mode. */
    method Cancel()
      requires Valid() && adding
      modifies this
      ensures Valid() && !adding && selected.None? && amount == Blank && !split
    {
      adding := false;
      selected := None;
      amount := Blank;
      split := false;
    }
  }

  /** An account's flow form after picking an expense node without an amount:
      the amount is locked to "0", which keeps Save disabled. */
  method ZeroAmountExpenseSelected() returns (form: FlowForm)
    ensures fresh(form) && form.Valid() && form.adding && form.node.id == 1
    ensures form.selected == Some(2) && !form.split && form.CanSend() && form.IsExpenseDestination()
    ensures form.ExpenseAmount() == 0.0 && form.amount == Shown(0.0) && !form.SaveEnabled()
  {
    var account := Node(1, Account, "Checking", "", None, Some(500.0), None, EmptyMeta);
    var bill := Node(2, Expense, "Gym", "", None, None, None, EmptyMeta);
    form := new FlowForm(account, [account, bill]);
    assert bill in ValidDestinations(account, [account, bill]);
    form.Open();
    form.Select(Some(2));
  }

  /** Continuing from that state: split mode lets the user type an amount, and
      switching split mode back off does not refill, so the locked amount keeps
      the typed value and a flow of that value is created. */
  method ZeroAmountExpenseScenario() returns (req: Option<FlowRequest>)
    ensures req == Some(FlowRequest(1, 2, 42.0, "", true))
  {
    var form := ZeroAmountExpenseSelected();
    form.SetSplit(true);
    ParseFortyTwo();
    form.SetAmount("42");
    form.SetSplit(false);
    assert form.IsAmountLocked() && form.amount == Typed("42");
    req := form.Save();
  }
}
