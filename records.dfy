// The records the front end receives from the server (internal/models/models.go
// serialised to JSON) and the node types shared by every component.

module Records {
  import opened Js

  /** The `type` column of a node. `Goal` nodes are created by CreateGoal only. */
  datatype NodeType = Income | Account | Savings | Investment | Expense | Budget | Goal

  /** The string stored in the database and sent to the client. */
  function TypeName(t: NodeType): string
  {
    match t
    case Income => "income"
    case Account => "account"
    case Savings => "savings"
    case Investment => "investment"
    case Expense => "expense"
    case Budget => "budget"
    case Goal => "goal"
  }

  /** Type names are distinct, so a type survives the round trip through its name. */
  lemma TypeNameInjective(a: NodeType, b: NodeType)
    ensures TypeName(a) == TypeName(b) <==> a == b
  {
  }

  /** The node's metadata string after `JSON.parse(node.metadata || '{}')`:
      either the parse threw, or the four keys the program reads, with their
      JavaScript values (Undefined when the key is absent). */
  datatype Meta = Unparseable(raw: string) | Parsed(subscription: JsVal, budgeted: JsVal, flag: JsVal, goal: JsVal)

  /** The parse of an absent metadata string (`'{}'`). */
  const EmptyMeta: Meta := Parsed(Undefined, Undefined, Undefined, Undefined)

  /** A node as the client holds it (`name` is its `label`). Go's `omitempty` leaves zero amounts and the
      empty institution out of the JSON, so they arrive as undefined (None / ""). */
  datatype Node = Node(
    id: int,
    kind: NodeType,
    name: string,
    institution: string,
    amount: Option<real>,
    balance: Option<real>,
    apy: Option<real>,
    meta: Meta)

  /** A flow as the client holds it. */
  datatype Flow = Flow(id: int, from: int, to: int, amount: real)

  /** `nodes.find(n => n.id === id)`: the first node with that id. */
  function Find(nodes: seq<Node>, id: int): (r: Option<Node>)
    ensures r.Some? ==> r.value in nodes && r.value.id == id
    ensures r.None? <==> forall n :: n in nodes ==> n.id != id
  {
    if nodes == [] then None
    else if nodes[0].id == id then Some(nodes[0])
    else Find(nodes[1..], id)
  }

  /** Node ids are the primary key of the nodes table. */
  predicate UniqueIds(nodes: seq<Node>)
  {
    forall i, j :: 0 <= i < j < |nodes| ==> nodes[i].id != nodes[j].id
  }

  /** With unique ids, looking a node up by its own id finds that node. */
  lemma {:induction false} FindOwnId(nodes: seq<Node>, k: int)
    requires UniqueIds(nodes)
    requires 0 <= k < |nodes|
    ensures Find(nodes, nodes[k].id) == Some(nodes[k])
  {
    if k > 0 {
      assert nodes[0].id != nodes[k].id;
      assert UniqueIds(nodes[1..]) by {
        forall i, j | 0 <= i < j < |nodes| - 1
          ensures nodes[1..][i].id != nodes[1..][j].id
        {
          assert nodes[1..][i] == nodes[i + 1] && nodes[1..][j] == nodes[j + 1];
        }
      }
      FindOwnId(nodes[1..], k - 1);
    }
  }
}
