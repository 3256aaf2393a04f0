// The HTTP handlers of internal/handlers/handlers.go over an in-memory store
// whose tables are sequences of rows. Each SQL statement becomes an
// assignment to a table; the JSON body arrives already decoded; the caller's
// user id, which middleware reads from the access token, is a parameter.
// The database is opened without `_foreign_keys=on`, so the schema's
// ON DELETE CASCADE clauses never fire: only the handlers' own statements
// change the tables.

module Handlers {
  import opened Js
  import Records
  import Seqs

  // HTTP status codes the handlers answer with.
  const StatusOk: int := 200
  const Created: int := 201
  const NoContent: int := 204
  const BadRequest: int := 400
  const Forbidden: int := 403
  const NotFound: int := 404
  const Conflict: int := 409

  const MaxInt64: int := 0x7FFF_FFFF_FFFF_FFFF
  const MinInt64: int := -0x8000_0000_0000_0000

  // ---------------------------------------------------------------------
  // strconv.ParseInt(s, 10, 64) and strconv.FormatInt(n, 10)
  // ---------------------------------------------------------------------

  /** What strconv.ParseInt returns: a value, a syntax error (with value 0),
      or a range error (with the clamped value). */
  datatype IntParse = Int(n: int) | BadSyntax | OutOfRange(clamped: int)

  /** The value of a string of decimal digits. */
  function DigitsValue(ds: string): nat
    requires AllDigits(ds)
  {
    if ds == [] then 0
    else DigitsValue(ds[..|ds| - 1]) * 10 + (ds[|ds| - 1] as int - '0' as int)
  }

  /** The text after an optional leading sign. */
  function Unsigned(s: string): (r: string)
    ensures |r| <= |s| && r == s[|s| - |r|..]
  {
    if |s| > 0 && (s[0] == '-' || s[0] == '+') then s[1..] else s
  }

  /** strconv.ParseInt in base 10 with a 64-bit result: an optional sign and
      at least one digit, nothing else; values beyond int64 are range errors. */
  function ParseInt(s: string): (r: IntParse)
    ensures r.Int? ==> MinInt64 <= r.n <= MaxInt64
    ensures r.OutOfRange? ==> r.clamped == MinInt64 || r.clamped == MaxInt64
    ensures r != BadSyntax ==> exists i :: 0 <= i < |s| && IsDigit(s[i])
    ensures s == "" ==> r == BadSyntax
  {
    var ds := Unsigned(s);
    if ds == [] || !AllDigits(ds) then BadSyntax
    else
      assert IsDigit(s[|s| - |ds|]) by { assert ds[0] == s[|s| - |ds|]; }
      var v: int := if s[0] == '-' then 0 - DigitsValue(ds) else DigitsValue(ds);
      InRange(v)
  }

  /** The 64-bit range check of ParseInt. */
  function InRange(v: int): (r: IntParse)
    ensures r != BadSyntax
  {
    if v > MaxInt64 then OutOfRange(MaxInt64)
    else if v < MinInt64 then OutOfRange(MinInt64)
    else Int(v)
  }

  /** `v, _ := strconv.ParseInt(...)`: the value Go hands back beside an
      error the handler ignores. */
  function ParsedOrZero(s: string): (r: int)
    ensures MinInt64 <= r <= MaxInt64
    ensures ParseInt(s).Int? ==> r == ParseInt(s).n
    ensures ParseInt(s) == BadSyntax ==> r == 0
  {
    match ParseInt(s)
    case Int(n) => n
    case BadSyntax => 0
    case OutOfRange(c) => c
  }

  function DigitChar(d: nat): char
    requires d < 10
  {
    ('0' as int + d) as char
  }

  /** The shortest decimal numeral of n. */
  function Decimal(n: nat): (r: string)
    ensures |r| > 0 && AllDigits(r)
  {
    if n < 10 then [DigitChar(n)] else Decimal(n / 10) + [DigitChar(n % 10)]
  }

  /** strconv.FormatInt(n, 10), also what JavaScript prints for an id in a URL. */
  function FormatInt(n: int): string
  {
    if n < 0 then "-" + Decimal(-n) else Decimal(n)
  }

  lemma {:induction false} DecimalValue(n: nat)
    ensures DigitsValue(Decimal(n)) == n
  {
    if n >= 10 {
      var d := Decimal(n);
      assert d[..|d| - 1] == Decimal(n / 10);
      DecimalValue(n / 10);
    } else {
      assert Decimal(n)[..0] == "";
    }
  }

  /** Every int64 printed in decimal parses back to itself. */
  lemma ParseFormatRoundTrip(n: int)
    requires MinInt64 <= n <= MaxInt64
    ensures ParseInt(FormatInt(n)) == Int(n)
  {
    var s := FormatInt(n);
    if n < 0 {
      assert s[0] == '-' && Unsigned(s) == Decimal(-n);
      DecimalValue(-n);
      assert InRange(0 - DigitsValue(Decimal(-n))) == Int(n);
    } else {
      assert IsDigit(s[0]);
      assert Unsigned(s) == Decimal(n);
      DecimalValue(n);
      assert InRange(DigitsValue(Decimal(n))) == Int(n);
    }
  }

  lemma ParseIntExamples()
    ensures ParseInt("") == BadSyntax
    ensures ParseInt("abc") == BadSyntax
    ensures ParseInt("+") == BadSyntax
    ensures ParseInt("1a") == BadSyntax
    ensures ParseInt("+7") == Int(7)
    ensures ParseInt("-7") == Int(-7)
  {
    assert Unsigned("abc") == "abc" && !IsDigit("abc"[0]);
    assert Unsigned("1a") == "1a" && !IsDigit("1a"[1]);
    assert Unsigned("+7") == "7" && Unsigned("-7") == "7";
    assert "7"[..0] == "";
  }

  // ---------------------------------------------------------------------
  // Go's len on a string counts UTF-8 bytes
  // ---------------------------------------------------------------------

  function Utf8Width(c: char): nat
  {
    if c as int < 0x80 then 1
    else if c as int < 0x800 then 2
    else if c as int < 0x10000 then 3
    else 4
  }

  /** `len(s)`: the number of bytes of s in UTF-8, between one and four per character. */
  function Utf8Length(s: string): (r: nat)
    ensures |s| <= r <= 4 * |s|
  {
    if s == [] then 0 else Utf8Length(s[..|s| - 1]) + Utf8Width(s[|s| - 1])
  }

  // ---------------------------------------------------------------------
  // Rows of the tables (internal/models/models.go)
  // ---------------------------------------------------------------------

  datatype User = User(id: int, email: string)

  datatype Profile = Profile(id: int, user: int, name: string, color: string, owner: bool)

  /** The fields of CreateNodeRequest; a created row stores them as given. */
  datatype NodeFields = NodeFields(
    kind: string, name: string, institution: string,
    amount: real, balance: real, apy: real, budgeted: real, goal: real,
    metadata: string)

  datatype NodeRow = NodeRow(id: int, profile: int, fields: NodeFields)

  /** The fields of CreateFlowRequest. */
  datatype FlowFields = FlowFields(from: int, to: int, amount: real, caption: string, recurring: bool)

  datatype FlowRow = FlowRow(id: int, profile: int, fields: FlowFields)

  /** A calendar date, stored as "YYYY-MM-DD" text. */
  datatype Date = Date(year: int, month: int, day: int)

  datatype BudgetRow = BudgetRow(id: int, profile: int, name: string, budgeted: real)

  datatype Transaction = Transaction(id: int, budget: int, amount: real, date: Date)

  datatype Goal = Goal(id: int, profile: int, name: string, target: real, current: real)

  /** A row of goal_transactions. */
  datatype Contribution = Contribution(id: int, goal: int, amount: real, note: string, date: string)

  datatype Tables = Tables(
    users: seq<User>, profiles: seq<Profile>, nodes: seq<NodeRow>, flows: seq<FlowRow>,
    budgets: seq<BudgetRow>, transactions: seq<Transaction>,
    goals: seq<Goal>, contributions: seq<Contribution>)

  datatype Result<T> = Ok(value: T) | Err(status: int)

  function UserId(u: User): int { u.id }
  function ProfileId(p: Profile): int { p.id }
  function NodeId(n: NodeRow): int { n.id }
  function FlowId(f: FlowRow): int { f.id }
  function ContributionId(c: Contribution): int { c.id }

  /** The id SQLite gives the next row of a table: one more than the largest id present. */
  function NextId<R>(rows: seq<R>, key: R -> int): (r: int)
    ensures r >= 1
    ensures forall k :: 0 <= k < |rows| ==> key(rows[k]) < r
  {
    if rows == [] then 1
    else
      var m := NextId(rows[..|rows| - 1], key);
      var last := key(rows[|rows| - 1]) + 1;
      if last > m then last else m
  }

  /** `id INTEGER PRIMARY KEY`: no two rows share an id. */
  predicate UniqueKeys<R>(rows: seq<R>, key: R -> int)
  {
    forall i, j :: 0 <= i < j < |rows| ==> key(rows[i]) != key(rows[j])
  }

  // ---------------------------------------------------------------------
  // getProfileID
  // ---------------------------------------------------------------------

  predicate Owns(profiles: seq<Profile>, user: int, pid: int)
  {
    exists p :: p in profiles && p.id == pid && p.user == user
  }

  /** getProfileID: the route's profile id must parse (else 400) and name a
      profile of the calling user (else 403). */
  function AuthorizeProfile(profiles: seq<Profile>, user: int, param: string): (r: Result<int>)
    ensures r == Err(BadRequest) <==> !ParseInt(param).Int?
    ensures r == Err(Forbidden) <==> ParseInt(param).Int? && !Owns(profiles, user, ParseInt(param).n)
    ensures r.Ok? ==> ParseInt(param) == Int(r.value) && Owns(profiles, user, r.value)
  {
    match ParseInt(param)
    case Int(pid) => if Owns(profiles, user, pid) then Ok(pid) else Err(Forbidden)
    case _ => Err(BadRequest)
  }

  /** A user reaches each of their own profiles through its printed id. */
  lemma OwnProfileAuthorized(profiles: seq<Profile>, user: int, p: Profile)
    requires p in profiles && p.user == user && MinInt64 <= p.id <= MaxInt64
    ensures AuthorizeProfile(profiles, user, FormatInt(p.id)) == Ok(p.id)
  {
    ParseFormatRoundTrip(p.id);
  }

  /** Another user's profile is refused with 403. */
  lemma ForeignProfileForbidden(profiles: seq<Profile>, user: int, p: Profile)
    requires p in profiles && p.user != user && MinInt64 <= p.id <= MaxInt64
    requires UniqueKeys(profiles, ProfileId)
    ensures AuthorizeProfile(profiles, user, FormatInt(p.id)) == Err(Forbidden)
  {
    ParseFormatRoundTrip(p.id);
  }

  // ---------------------------------------------------------------------
  // Register
  // ---------------------------------------------------------------------

  /** The avatar colour of the profile Register creates. */
  const OwnerColor: string := "#10b981"

  /** Register's input checks: email, password and name present, and the
      password at least 8 bytes long. */
  predicate RegistrationValid(email: string, password: string, name: string)
  {
    email != "" && password != "" && name != "" && Utf8Length(password) >= 8
  }

  predicate EmailTaken(users: seq<User>, email: string)
  {
    exists u :: u in users && u.email == email
  }

  /** Any password of 8 or more characters passes the length check. */
  lemma EightCharactersSuffice(email: string, password: string, name: string)
    requires email != "" && name != "" && |password| >= 8
    ensures RegistrationValid(email, password, name)
  {
  }

  /** The check counts bytes, not characters: four two-byte characters pass. */
  lemma LengthCountsBytes()
    ensures |"\U{E9}\U{E9}\U{E9}\U{E9}"| == 4
    ensures RegistrationValid("a@b.c", "\U{E9}\U{E9}\U{E9}\U{E9}", "Ann")
  {
    var c := '\U{E9}';
    assert Utf8Width(c) == 2;
    assert [c][..0] == [] && Utf8Length([c]) == 2;
    assert [c, c][..1] == [c] && Utf8Length([c, c]) == 4;
    assert [c, c, c][..2] == [c, c] && Utf8Length([c, c, c]) == 6;
    assert [c, c, c, c][..3] == [c, c, c] && Utf8Length([c, c, c, c]) == 8;
    assert "\U{E9}\U{E9}\U{E9}\U{E9}" == [c, c, c, c];
  }

  // ---------------------------------------------------------------------
  // Nodes
  // ---------------------------------------------------------------------

  /** CreateNode's `validTypes`. */
  predicate ValidNodeType(t: string)
  {
    t in {"income", "account", "savings", "investment", "expense", "budget"}
  }

  /** The accepted types are exactly the names of every node type but goal. */
  lemma ValidNodeTypeNames(t: string)
    ensures ValidNodeType(t) <==> exists k :: k != Records.Goal && Records.TypeName(k) == t
  {
    if ValidNodeType(t) {
      var k :=
        if t == "income" then Records.Income
        else if t == "account" then Records.Account
        else if t == "savings" then Records.Savings
        else if t == "investment" then Records.Investment
        else if t == "expense" then Records.Expense
        else Records.Budget;
      assert k != Records.Goal && Records.TypeName(k) == t;
    }
  }

  /** `COALESCE(NULLIF(?, ''), column)`: an empty string keeps the stored value. */
  function Coalesce(given: string, stored: string): (r: string)
    ensures given != "" ==> r == given
    ensures given == "" ==> r == stored
  {
    if given == "" then stored else given
  }

  /** One row after UpdateNode's SET clause: label and metadata keep their old
      value when the request leaves them empty, the type is never written, and
      every other field is taken from the request. */
  function UpdatedNode(row: NodeRow, req: NodeFields): (r: NodeRow)
    ensures r.id == row.id && r.profile == row.profile && r.fields.kind == row.fields.kind
    ensures r.fields.name == Coalesce(req.name, row.fields.name)
    ensures r.fields.metadata == Coalesce(req.metadata, row.fields.metadata)
    ensures r.fields.(kind := req.kind, name := req.name, metadata := req.metadata) == req
  {
    row.(fields := req.(
      kind := row.fields.kind,
      name := Coalesce(req.name, row.fields.name),
      metadata := Coalesce(req.metadata, row.fields.metadata)))
  }

  /** Sending the same update twice changes nothing the second time. */
  lemma UpdatedNodeIdempotent(row: NodeRow, req: NodeFields)
    ensures UpdatedNode(UpdatedNode(row, req), req) == UpdatedNode(row, req)
  {
  }

  function UpdateNodeIn(id: int, pid: int, req: NodeFields): NodeRow -> NodeRow
  {
    (n: NodeRow) => if n.id == id && n.profile == pid then UpdatedNode(n, req) else n
  }

  /** `UPDATE nodes ... WHERE id = ? AND profile_id = ?`. */
  function UpdateNodes(rows: seq<NodeRow>, id: int, pid: int, req: NodeFields): (r: seq<NodeRow>)
    ensures |r| == |rows|
    ensures forall k :: 0 <= k < |rows| ==> r[k].id == rows[k].id && r[k].profile == rows[k].profile
    ensures forall k :: 0 <= k < |rows| ==> r[k].fields.kind == rows[k].fields.kind
    ensures forall k :: 0 <= k < |rows| && (rows[k].id != id || rows[k].profile != pid) ==> r[k] == rows[k]
    ensures forall k :: 0 <= k < |rows| && rows[k].id == id && rows[k].profile == pid ==> r[k] == UpdatedNode(rows[k], req)
  {
    Seqs.Map(rows, UpdateNodeIn(id, pid, req))
  }

  predicate Touches(f: FlowRow, id: int)
  {
    f.fields.from == id || f.fields.to == id
  }

  function FlowAvoids(id: int): FlowRow -> bool
  {
    (f: FlowRow) => !Touches(f, id)
  }

  function NodeOutside(id: int, pid: int): NodeRow -> bool
  {
    (n: NodeRow) => !(n.id == id && n.profile == pid)
  }

  /** DeleteNode as written: the flows touching the id are deleted whatever
      profile they belong to; the node itself only within the caller's profile. */
  function AfterDeleteNodeAsWritten(t: Tables, id: int, pid: int): (r: Tables)
    ensures r.users == t.users && r.profiles == t.profiles && r.budgets == t.budgets
    ensures r.transactions == t.transactions && r.goals == t.goals && r.contributions == t.contributions
    ensures forall f :: f in r.flows <==> f in t.flows && !Touches(f, id)
    ensures forall n :: n in r.nodes <==> n in t.nodes && !(n.id == id && n.profile == pid)
  {
    t.(flows := Seqs.Filter(t.flows, FlowAvoids(id)), nodes := Seqs.Filter(t.nodes, NodeOutside(id, pid)))
  }

  predicate HasNode(nodes: seq<NodeRow>, id: int, pid: int)
  {
    exists n :: n in nodes && n.id == id && n.profile == pid
  }

  /** User 1 owns profile 1; user 2 owns profile 2, which holds an income
      node 7, an account node 8 and a flow 9 from the first to the second. */
  function TwoProfiles(): Tables
  {
    Tables(
      [User(1, "ann@example.com"), User(2, "bo@example.com")],
      [Profile(1, 1, "Ann", OwnerColor, true), Profile(2, 2, "Bo", OwnerColor, true)],
      [NodeRow(7, 2, NodeFields("income", "Pay", "", 100.0, 0.0, 0.0, 0.0, 0.0, "")),
       NodeRow(8, 2, NodeFields("account", "Bank", "", 0.0, 0.0, 0.0, 0.0, 0.0, ""))],
      [FlowRow(9, 2, FlowFields(7, 8, 100.0, "", true))],
      [], [], [], [])
  }

  /** The caller of profile 1 deletes node 7, which is not theirs: profile 2
      keeps node 7 but loses the flow that leaves it. */
  lemma DeleteNodeReachesOtherProfiles()
    ensures Owns(TwoProfiles().profiles, 1, 1) && !HasNode(TwoProfiles().nodes, 7, 1)
    ensures AfterDeleteNodeAsWritten(TwoProfiles(), 7, 1).nodes == TwoProfiles().nodes
    ensures TwoProfiles().flows != [] && AfterDeleteNodeAsWritten(TwoProfiles(), 7, 1).flows == []
  {
    var t := TwoProfiles();
    assert t.profiles[0] in t.profiles;
    Seqs.FilterKeepsAll(t.nodes, NodeOutside(7, 1));
  }

  /** The scoped delete of the same node by the same caller changes nothing. */
  lemma DeleteNodeScopedExample()
    ensures AfterDeleteNode(TwoProfiles(), 7, 1) == TwoProfiles()
  {
  }

  /** DeleteNode with its cascade scoped to the caller: nothing happens unless
      the caller's profile holds a node with that id. */
  function AfterDeleteNode(t: Tables, id: int, pid: int): (r: Tables)
    ensures HasNode(t.nodes, id, pid) ==> r == AfterDeleteNodeAsWritten(t, id, pid)
    ensures !HasNode(t.nodes, id, pid) ==> r == t
  {
    if HasNode(t.nodes, id, pid) then AfterDeleteNodeAsWritten(t, id, pid) else t
  }

  /** The scoped delete leaves no flow on the deleted node, and every other
      profile keeps its nodes and every flow that does not touch a node of the
      caller's profile. */
  lemma DeleteNodeStaysInProfile(t: Tables, id: int, pid: int)
    ensures HasNode(t.nodes, id, pid) ==> forall f :: f in AfterDeleteNode(t, id, pid).flows ==> !Touches(f, id)
    ensures forall n :: n in t.nodes && n.profile != pid ==> n in AfterDeleteNode(t, id, pid).nodes
    ensures forall f :: f in t.flows && !HasNode(t.nodes, f.fields.from, pid) && !HasNode(t.nodes, f.fields.to, pid)
              ==> f in AfterDeleteNode(t, id, pid).flows
  {
  }

  // ---------------------------------------------------------------------
  // Profiles and flows
  // ---------------------------------------------------------------------

  predicate IsOwnerProfile(profiles: seq<Profile>, pid: int)
  {
    exists p :: p in profiles && p.id == pid && p.owner
  }

  function ProfileOtherThan(pid: int): Profile -> bool
  {
    (p: Profile) => p.id != pid
  }

  /** One flow after UpdateFlow's SET clause: amount, label and the recurring
      flag come from the request; the endpoints never change. */
  function RetunedFlow(f: FlowRow, req: FlowFields): (r: FlowRow)
    ensures r.id == f.id && r.profile == f.profile
    ensures r.fields.from == f.fields.from && r.fields.to == f.fields.to
    ensures r.fields.amount == req.amount && r.fields.caption == req.caption && r.fields.recurring == req.recurring
  {
    f.(fields := req.(from := f.fields.from, to := f.fields.to))
  }

  function RetuneFlowIn(id: int, pid: int, req: FlowFields): FlowRow -> FlowRow
  {
    (f: FlowRow) => if f.id == id && f.profile == pid then RetunedFlow(f, req) else f
  }

  /** `UPDATE flows SET amount, label, is_recurring WHERE id = ? AND profile_id = ?`. */
  function UpdateFlows(rows: seq<FlowRow>, id: int, pid: int, req: FlowFields): (r: seq<FlowRow>)
    ensures |r| == |rows|
    ensures forall k :: 0 <= k < |rows| ==> r[k].id == rows[k].id && r[k].profile == rows[k].profile
    ensures forall k :: 0 <= k < |rows| ==> r[k].fields.from == rows[k].fields.from && r[k].fields.to == rows[k].fields.to
    ensures forall k :: 0 <= k < |rows| && (rows[k].id != id || rows[k].profile != pid) ==> r[k] == rows[k]
    ensures forall k :: 0 <= k < |rows| && rows[k].id == id && rows[k].profile == pid ==> r[k] == RetunedFlow(rows[k], req)
  {
    Seqs.Map(rows, RetuneFlowIn(id, pid, req))
  }

  // ---------------------------------------------------------------------
  // ListBudgets
  // ---------------------------------------------------------------------

  /** Date order, which is also the order of their "YYYY-MM-DD" texts. */
  predicate Before(a: Date, b: Date)
  {
    a.year < b.year || (a.year == b.year && (a.month < b.month || (a.month == b.month && a.day < b.day)))
  }

  predicate ValidDate(d: Date)
  {
    1 <= d.month <= 12 && 1 <= d.day
  }

  function MonthStart(today: Date): Date
  {
    Date(today.year, today.month, 1)
  }

  /** `monthStart.AddDate(0, 1, 0)`: December rolls over into January. */
  function NextMonthStart(today: Date): Date
  {
    if today.month == 12 then Date(today.year + 1, 1, 1) else Date(today.year, today.month + 1, 1)
  }

  /** `t.date >= monthStart AND t.date < monthEnd`. */
  predicate InMonth(d: Date, today: Date)
  {
    !Before(d, MonthStart(today)) && Before(d, NextMonthStart(today))
  }

  /** The window is exactly the calendar month of `today`. */
  lemma InMonthIsCalendarMonth(d: Date, today: Date)
    requires ValidDate(d) && ValidDate(today)
    ensures InMonth(d, today) <==> d.year == today.year && d.month == today.month
  {
  }

  function TransactionAmount(x: Transaction): real { x.amount }

  function CountsToward(bid: int, today: Date): Transaction -> bool
  {
    (x: Transaction) => x.budget == bid && InMonth(x.date, today)
  }

  /** `COALESCE(SUM(t.amount), 0)` over the budget's transactions of this month. */
  function Spent(txs: seq<Transaction>, bid: int, today: Date): real
  {
    if txs == [] then 0.0
    else
      var x := txs[|txs| - 1];
      Spent(txs[..|txs| - 1], bid, today) + (if x.budget == bid && InMonth(x.date, today) then x.amount else 0.0)
  }

  /** Spent is the sum of exactly the budget's transactions dated this month. */
  lemma {:induction false} SpentIsMonthSum(txs: seq<Transaction>, bid: int, today: Date)
    ensures Spent(txs, bid, today) == Seqs.Sum(Seqs.Filter(txs, CountsToward(bid, today)), TransactionAmount)
  {
    if txs != [] {
      var init := txs[..|txs| - 1];
      var x := txs[|txs| - 1];
      var p := CountsToward(bid, today);
      var kept := Seqs.Filter(init, p);
      assert txs == init + [x];
      assert Spent(txs, bid, today) == Spent(init, bid, today) + (if p(x) then x.amount else 0.0);
      SpentIsMonthSum(init, bid, today);
      Seqs.FilterSnoc(init, x, p);
      if p(x) {
        Seqs.SumSnoc(kept, x, TransactionAmount);
      } else {
        assert Seqs.Filter(txs, p) == kept + [] == kept;
      }
    }
  }

  /** A budget with the fields ListBudgets computes. */
  datatype BudgetView = BudgetView(budget: BudgetRow, spent: real, remaining: real, percentage: real)

  /** remaining = budgeted − spent; percentage = spent/budgeted·100 only when
      budgeted is positive, else 0. */
  function View(b: BudgetRow, spent: real): (v: BudgetView)
    ensures v.budget == b && v.spent == spent
    ensures v.remaining + v.spent == b.budgeted
    ensures b.budgeted > 0.0 ==> v.percentage * b.budgeted == spent * 100.0
    ensures b.budgeted <= 0.0 ==> v.percentage == 0.0
  {
    BudgetView(b, spent, b.budgeted - spent, if b.budgeted > 0.0 then (spent / b.budgeted) * 100.0 else 0.0)
  }

  /** The profile's budgets, each with its derived fields, in table order. */
  function BudgetViews(budgets: seq<BudgetRow>, pid: int, txs: seq<Transaction>, today: Date): (r: seq<BudgetView>)
    ensures |r| <= |budgets|
    ensures forall v :: v in r ==> v.budget in budgets && v.budget.profile == pid
    ensures forall v :: v in r ==> v == View(v.budget, Spent(txs, v.budget.id, today))
    ensures forall b :: b in budgets && b.profile == pid ==> View(b, Spent(txs, b.id, today)) in r
  {
    if budgets == [] then []
    else
      var b := budgets[|budgets| - 1];
      assert budgets == budgets[..|budgets| - 1] + [b];
      BudgetViews(budgets[..|budgets| - 1], pid, txs, today)
        + (if b.profile == pid then [View(b, Spent(txs, b.id, today))] else [])
  }

  // ---------------------------------------------------------------------
  // Goal contributions
  // ---------------------------------------------------------------------

  /** `UPDATE goals SET current = current + ? WHERE id = ?`. */
  function Adjust(goals: seq<Goal>, id: int, delta: real): (r: seq<Goal>)
    ensures |r| == |goals|
    ensures forall k :: 0 <= k < |goals| && goals[k].id != id ==> r[k] == goals[k]
    ensures forall k :: 0 <= k < |goals| && goals[k].id == id ==> r[k] == goals[k].(current := goals[k].current + delta)
  {
    if goals == [] then []
    else
      var g := goals[|goals| - 1];
      Adjust(goals[..|goals| - 1], id, delta) + [if g.id == id then g.(current := g.current + delta) else g]
  }

  /** Subtracting what was added restores every goal. */
  lemma AdjustInverse(goals: seq<Goal>, id: int, delta: real)
    ensures Adjust(Adjust(goals, id, delta), id, -delta) == goals
  {
    var r := Adjust(Adjust(goals, id, delta), id, -delta);
    assert forall k :: 0 <= k < |goals| ==> r[k] == goals[k];
  }

  predicate HasGoal(goals: seq<Goal>, gid: int, pid: int)
  {
    exists g :: g in goals && g.id == gid && g.profile == pid
  }

  /** `SELECT amount FROM goal_transactions WHERE id = ? AND goal_id = ?`: the first such row. */
  function FindContribution(cs: seq<Contribution>, id: int, gid: int): (r: Option<Contribution>)
    ensures r.Some? ==> r.value in cs && r.value.id == id && r.value.goal == gid
    ensures r.None? <==> forall c :: c in cs ==> !(c.id == id && c.goal == gid)
  {
    if cs == [] then None
    else
      var r := FindContribution(cs[..|cs| - 1], id, gid);
      var c := cs[|cs| - 1];
      assert cs == cs[..|cs| - 1] + [c];
      if r.Some? then r else if c.id == id && c.goal == gid then Some(c) else None
  }

  function ContributionOutside(id: int, gid: int): Contribution -> bool
  {
    (c: Contribution) => !(c.id == id && c.goal == gid)
  }

  /** CreateGoalTransaction's two statements: insert the contribution, raise the goal. */
  function AddContribution(t: Tables, gid: int, amount: real, note: string, date: string): (r: Tables)
    ensures r.users == t.users && r.profiles == t.profiles && r.nodes == t.nodes && r.flows == t.flows
    ensures r.budgets == t.budgets && r.transactions == t.transactions
    ensures r.contributions == t.contributions + [Contribution(NextId(t.contributions, ContributionId), gid, amount, note, date)]
    ensures r.goals == Adjust(t.goals, gid, amount)
  {
    var id := NextId(t.contributions, ContributionId);
    t.(contributions := t.contributions + [Contribution(id, gid, amount, note, date)],
       goals := Adjust(t.goals, gid, amount))
  }

  /** DeleteGoalTransaction's two statements: delete the contribution, lower the goal by its amount. */
  function RemoveContribution(t: Tables, gid: int, c: Contribution): (r: Tables)
    ensures r.users == t.users && r.profiles == t.profiles && r.nodes == t.nodes && r.flows == t.flows
    ensures r.budgets == t.budgets && r.transactions == t.transactions
    ensures forall x :: x in r.contributions <==> x in t.contributions && !(x.id == c.id && x.goal == gid)
    ensures r.goals == Adjust(t.goals, gid, -c.amount)
  {
    t.(contributions := Seqs.Filter(t.contributions, ContributionOutside(c.id, gid)),
       goals := Adjust(t.goals, gid, -c.amount))
  }

  /** A contribution whose id is larger than every stored one is the row the
      lookup finds after it is appended, and the delete removes only that row. */
  lemma {:induction false} FreshContribution(cs: seq<Contribution>, c: Contribution)
    requires forall x :: x in cs ==> x.id < c.id
    ensures FindContribution(cs + [c], c.id, c.goal) == Some(c)
    ensures Seqs.Filter(cs + [c], ContributionOutside(c.id, c.goal)) == cs
  {
    assert (cs + [c])[..|cs|] == cs;
    Seqs.FilterSnoc(cs, c, ContributionOutside(c.id, c.goal));
    Seqs.FilterKeepsAll(cs, ContributionOutside(c.id, c.goal));
  }

  /** Deleting a contribution right after creating it restores every table. */
  lemma ContributionRoundTrip(t: Tables, gid: int, amount: real, note: string, date: string)
    ensures
      var c := Contribution(NextId(t.contributions, ContributionId), gid, amount, note, date);
      var t1 := AddContribution(t, gid, amount, note, date);
      && FindContribution(t1.contributions, c.id, gid) == Some(c)
      && RemoveContribution(t1, gid, c) == t
  {
    var c := Contribution(NextId(t.contributions, ContributionId), gid, amount, note, date);
    AddedContributionFound(t, gid, amount, note, date);
    assert AddContribution(t, gid, amount, note, date)
      == t.(contributions := t.contributions + [c], goals := Adjust(t.goals, gid, c.amount));
    RemoveUndoesAppend(t, gid, c);
  }

  /** Deleting an appended contribution, with the goal raised by its amount, gives back the tables. */
  lemma RemoveUndoesAppend(t: Tables, gid: int, c: Contribution)
    requires Seqs.Filter(t.contributions + [c], ContributionOutside(c.id, gid)) == t.contributions
    ensures RemoveContribution(t.(contributions := t.contributions + [c], goals := Adjust(t.goals, gid, c.amount)), gid, c) == t
  {
    RemoveRestoresGoals(t, gid, c);
  }

  /** The delete lowers the goal by exactly what the insert raised it by. */
  lemma RemoveRestoresGoals(t: Tables, gid: int, c: Contribution)
    ensures RemoveContribution(t.(contributions := t.contributions + [c], goals := Adjust(t.goals, gid, c.amount)), gid, c).goals == t.goals
  {
    AdjustInverse(t.goals, gid, c.amount);
  }

  /** The contribution row CreateGoalTransaction inserts, seen through the lookup and the delete's filter. */
  lemma AddedContributionFound(t: Tables, gid: int, amount: real, note: string, date: string)
    ensures
      var c := Contribution(NextId(t.contributions, ContributionId), gid, amount, note, date);
      var cs := AddContribution(t, gid, amount, note, date).contributions;
      && FindContribution(cs, c.id, gid) == Some(c)
      && Seqs.Filter(cs, ContributionOutside(c.id, gid)) == t.contributions
  {
    var c := Contribution(NextId(t.contributions, ContributionId), gid, amount, note, date);
    assert AddContribution(t, gid, amount, note, date).contributions == t.contributions + [c];
    AppendedContribution(t.contributions, c);
  }

  /** The row CreateGoalTransaction appends is the one the lookup finds, and the only one the delete drops. */
  lemma AppendedContribution(cs: seq<Contribution>, c: Contribution)
    requires c.id == NextId(cs, ContributionId)
    ensures FindContribution(cs + [c], c.id, c.goal) == Some(c)
    ensures Seqs.Filter(cs + [c], ContributionOutside(c.id, c.goal)) == cs
  {
    NextContributionIdFresh(cs);
    FreshContribution(cs, c);
  }

  /** The id a new contribution receives is above every stored id. */
  lemma NextContributionIdFresh(cs: seq<Contribution>)
    ensures forall x :: x in cs ==> x.id < NextId(cs, ContributionId)
  {
    forall x | x in cs
      ensures x.id < NextId(cs, ContributionId)
    {
      var k :| 0 <= k < |cs| && cs[k] == x;
      assert ContributionId(cs[k]) < NextId(cs, ContributionId);
    }
  }

  // ---------------------------------------------------------------------
  // The store and its handlers
  // ---------------------------------------------------------------------

  class Store {
    var users: seq<User>
    var profiles: seq<Profile>
    var nodes: seq<NodeRow>
    var flows: seq<FlowRow>
    var budgets: seq<BudgetRow>
    var transactions: seq<Transaction>
    var goals: seq<Goal>
    var contributions: seq<Contribution>

    /** All tables at once. */
    function State(): Tables
      reads this
    {
      Tables(users, profiles, nodes, flows, budgets, transactions, goals, contributions)
    }

    /** A freshly migrated, empty database. */
    constructor ()
      ensures State() == Tables([], [], [], [], [], [], [], [])
    {
      users, profiles, nodes, flows := [], [], [], [];
      budgets, transactions, goals, contributions := [], [], [], [];
    }

    /** Register: 400 for a missing field or a password under 8 bytes, 409
        for a taken email, otherwise a new user with an owner profile. */
    method Register(email: string, password: string, name: string) returns (status: int, user: int)
      modifies this
      ensures !RegistrationValid(email, password, name) ==> status == BadRequest && State() == old(State())
      ensures RegistrationValid(email, password, name) && EmailTaken(old(users), email) ==>
                status == Conflict && State() == old(State())
      ensures RegistrationValid(email, password, name) && !EmailTaken(old(users), email) ==>
                && status == StatusOk && user == NextId(old(users), UserId)
                && State() == old(State()).(
                     users := old(users) + [User(user, email)],
                     profiles := old(profiles) + [Profile(NextId(old(profiles), ProfileId), user, name, OwnerColor, true)])
    {
      if email == "" || password == "" || name == "" {
        return BadRequest, 0;
      }
      if Utf8Length(password) < 8 {
        return BadRequest, 0;
      }
      if EmailTaken(users, email) {
        return Conflict, 0;
      }
      user := NextId(users, UserId);
      users := users + [User(user, email)];
      profiles := profiles + [Profile(NextId(profiles, ProfileId), user, name, OwnerColor, true)];
      status := StatusOk;
    }

    /** DeleteProfile: refuses an owner profile with 403; otherwise only the
        profile row goes (the tables that reference it keep their rows). */
    method DeleteProfile(user: int, profileParam: string) returns (status: int)
      modifies this
      ensures var a := AuthorizeProfile(old(profiles), user, profileParam);
        && (a.Err? ==> status == a.status && State() == old(State()))
        && (a.Ok? && IsOwnerProfile(old(profiles), a.value) ==> status == Forbidden && State() == old(State()))
        && (a.Ok? && !IsOwnerProfile(old(profiles), a.value) ==>
              && status == NoContent
              && State() == old(State()).(profiles := Seqs.Filter(old(profiles), ProfileOtherThan(a.value))))
    {
      var a := AuthorizeProfile(profiles, user, profileParam);
      if a.Err? {
        return a.status;
      }
      if IsOwnerProfile(profiles, a.value) {
        return Forbidden;
      }
      profiles := Seqs.Filter(profiles, ProfileOtherThan(a.value));
      status := NoContent;
    }

    /** CreateNode: only the six user-creatable types are accepted. */
    method CreateNode(user: int, profileParam: string, req: NodeFields) returns (status: int, id: int)
      modifies this
      ensures var a := AuthorizeProfile(old(profiles), user, profileParam);
        && (a.Err? ==> status == a.status && State() == old(State()))
        && (a.Ok? && !ValidNodeType(req.kind) ==> status == BadRequest && State() == old(State()))
        && (a.Ok? && ValidNodeType(req.kind) ==>
              && status == Created && id == NextId(old(nodes), NodeId)
              && State() == old(State()).(nodes := old(nodes) + [NodeRow(id, a.value, req)]))
    {
      var a := AuthorizeProfile(profiles, user, profileParam);
      if a.Err? {
        return a.status, 0;
      }
      if !ValidNodeType(req.kind) {
        return BadRequest, 0;
      }
      id := NextId(nodes, NodeId);
      nodes := nodes + [NodeRow(id, a.value, req)];
      status := Created;
    }

    /** UpdateNode: a node id that does not parse is a 400; the update touches
        only the caller's profile. */
    method UpdateNode(user: int, profileParam: string, nodeParam: string, req: NodeFields) returns (status: int)
      modifies this
      ensures var a := AuthorizeProfile(old(profiles), user, profileParam);
        && (a.Err? ==> status == a.status && State() == old(State()))
        && (a.Ok? && !ParseInt(nodeParam).Int? ==> status == BadRequest && State() == old(State()))
        && (a.Ok? && ParseInt(nodeParam).Int? ==>
              && status == StatusOk
              && State() == old(State()).(nodes := UpdateNodes(old(nodes), ParseInt(nodeParam).n, a.value, req)))
    {
      var a := AuthorizeProfile(profiles, user, profileParam);
      if a.Err? {
        return a.status;
      }
      var parsed := ParseInt(nodeParam);
      if !parsed.Int? {
        return BadRequest;
      }
      nodes := Seqs.Map(nodes, UpdateNodeIn(parsed.n, a.value, req));
      status := StatusOk;
    }

    /** DeleteNode as the handler is written: the flow delete has no profile filter. */
    method DeleteNodeAsWritten(user: int, profileParam: string, nodeParam: string) returns (status: int)
      modifies this
      ensures var a := AuthorizeProfile(old(profiles), user, profileParam);
        && (a.Err? ==> status == a.status && State() == old(State()))
        && (a.Ok? ==>
              && status == NoContent
              && State() == AfterDeleteNodeAsWritten(old(State()), ParsedOrZero(nodeParam), a.value))
    {
      var a := AuthorizeProfile(profiles, user, profileParam);
      if a.Err? {
        return a.status;
      }
      var id := ParsedOrZero(nodeParam);
      flows := Seqs.Filter(flows, FlowAvoids(id));
      nodes := Seqs.Filter(nodes, NodeOutside(id, a.value));
      status := NoContent;
    }

    /** DeleteNode with the cascade limited to a node of the caller's profile. */
    method DeleteNode(user: int, profileParam: string, nodeParam: string) returns (status: int)
      modifies this
      ensures var a := AuthorizeProfile(old(profiles), user, profileParam);
        && (a.Err? ==> status == a.status && State() == old(State()))
        && (a.Ok? ==>
              && status == NoContent
              && State() == AfterDeleteNode(old(State()), ParsedOrZero(nodeParam), a.value))
    {
      var a := AuthorizeProfile(profiles, user, profileParam);
      if a.Err? {
        return a.status;
      }
      var id := ParsedOrZero(nodeParam);
      if HasNode(nodes, id, a.value) {
        flows := Seqs.Filter(flows, FlowAvoids(id));
        nodes := Seqs.Filter(nodes, NodeOutside(id, a.value));
      }
      status := NoContent;
    }

    /** CreateFlow: inserts whatever endpoints it is given; the connection
        rules of the front end are not checked here. */
    method CreateFlow(user: int, profileParam: string, req: FlowFields) returns (status: int, id: int)
      modifies this
      ensures var a := AuthorizeProfile(old(profiles), user, profileParam);
        && (a.Err? ==> status == a.status && State() == old(State()))
        && (a.Ok? ==>
              && status == Created && id == NextId(old(flows), FlowId)
              && State() == old(State()).(flows := old(flows) + [FlowRow(id, a.value, req)]))
    {
      var a := AuthorizeProfile(profiles, user, profileParam);
      if a.Err? {
        return a.status, 0;
      }
      id := NextId(flows, FlowId);
      flows := flows + [FlowRow(id, a.value, req)];
      status := Created;
    }

    /** UpdateFlow: amount, label and recurring flag of the caller's flow. */
    method UpdateFlow(user: int, profileParam: string, flowParam: string, req: FlowFields) returns (status: int)
      modifies this
      ensures var a := AuthorizeProfile(old(profiles), user, profileParam);
        && (a.Err? ==> status == a.status && State() == old(State()))
        && (a.Ok? ==>
              && status == StatusOk
              && State() == old(State()).(flows := UpdateFlows(old(flows), ParsedOrZero(flowParam), a.value, req)))
    {
      var a := AuthorizeProfile(profiles, user, profileParam);
      if a.Err? {
        return a.status;
      }
      flows := Seqs.Map(flows, RetuneFlowIn(ParsedOrZero(flowParam), a.value, req));
      status := StatusOk;
    }

    /** The loop over ListBudgets' rows: each budget of the profile, with its
        spent amount, remaining amount and percentage. */
    method ProfileBudgets(pid: int, today: Date) returns (views: seq<BudgetView>)
      ensures views == BudgetViews(budgets, pid, transactions, today)
    {
      views := [];
      for i := 0 to |budgets|
        invariant views == BudgetViews(budgets[..i], pid, transactions, today)
      {
        assert budgets[..i + 1][..i] == budgets[..i];
        var b := budgets[i];
        if b.profile == pid {
          var spent := Spent(transactions, b.id, today);
          var v := BudgetView(b, spent, b.budgeted - spent, 0.0);
          if b.budgeted > 0.0 {
            v := v.(percentage := (v.spent / b.budgeted) * 100.0);
          }
          assert v == View(b, spent);
          views := views + [v];
        }
      }
      assert budgets[..|budgets|] == budgets;
    }

    /** ListBudgets: the profile's budgets with spent summed over the
        transactions of today's month and the derived fields filled in. */
    method ListBudgets(user: int, profileParam: string, today: Date) returns (r: Result<seq<BudgetView>>)
      ensures AuthorizeProfile(profiles, user, profileParam).Err? ==>
                r == Err(AuthorizeProfile(profiles, user, profileParam).status)
      ensures AuthorizeProfile(profiles, user, profileParam).Ok? ==>
                r == Ok(BudgetViews(budgets, AuthorizeProfile(profiles, user, profileParam).value, transactions, today))
    {
      var a := AuthorizeProfile(profiles, user, profileParam);
      if a.Err? {
        return Err(a.status);
      }
      var views := ProfileBudgets(a.value, today);
      r := Ok(views);
    }

    /** CreateGoalTransaction: 404 unless the goal is the profile's; otherwise
        the contribution is stored and the goal's current amount raised by it.
        An empty date becomes today's. */
    method CreateGoalTransaction(user: int, profileParam: string, goalParam: string,
                                 amount: real, note: string, date: string, today: string)
      returns (status: int, id: int)
      modifies this
      ensures var a := AuthorizeProfile(old(profiles), user, profileParam);
        var gid := ParsedOrZero(goalParam);
        && (a.Err? ==> status == a.status && State() == old(State()))
        && (a.Ok? && !HasGoal(old(goals), gid, a.value) ==> status == NotFound && State() == old(State()))
        && (a.Ok? && HasGoal(old(goals), gid, a.value) ==>
              && status == Created && id == NextId(old(contributions), ContributionId)
              && State() == AddContribution(old(State()), gid, amount, note, if date == "" then today else date))
    {
      var a := AuthorizeProfile(profiles, user, profileParam);
      if a.Err? {
        return a.status, 0;
      }
      var gid := ParsedOrZero(goalParam);
      if !HasGoal(goals, gid, a.value) {
        return NotFound, 0;
      }
      var day := if date == "" then today else date;
      id := NextId(contributions, ContributionId);
      contributions := contributions + [Contribution(id, gid, amount, note, day)];
      goals := Adjust(goals, gid, amount);
      status := Created;
    }

    /** DeleteGoalTransaction: 404 for a goal outside the profile or a missing
        contribution, with nothing changed; otherwise the contribution is
        deleted and its stored amount taken off the goal. */
    method DeleteGoalTransaction(user: int, profileParam: string, goalParam: string, txParam: string)
      returns (status: int)
      modifies this
      ensures var a := AuthorizeProfile(old(profiles), user, profileParam);
        var gid := ParsedOrZero(goalParam);
        var c := FindContribution(old(contributions), ParsedOrZero(txParam), gid);
        && (a.Err? ==> status == a.status && State() == old(State()))
        && (a.Ok? && !HasGoal(old(goals), gid, a.value) ==> status == NotFound && State() == old(State()))
        && (a.Ok? && HasGoal(old(goals), gid, a.value) && c.None? ==> status == NotFound && State() == old(State()))
        && (a.Ok? && HasGoal(old(goals), gid, a.value) && c.Some? ==>
              status == NoContent && State() == RemoveContribution(old(State()), gid, c.value))
    {
      var a := AuthorizeProfile(profiles, user, profileParam);
      if a.Err? {
        return a.status;
      }
      var gid := ParsedOrZero(goalParam);
      var tid := ParsedOrZero(txParam);
      if !HasGoal(goals, gid, a.value) {
        return NotFound;
      }
      status := WithdrawContribution(gid, tid);
    }

    /** The statements after DeleteGoalTransaction's goal check: read the
        contribution's amount (404 if there is none), delete the row and lower
        the goal by that amount. */
    method WithdrawContribution(gid: int, tid: int) returns (status: int)
      modifies this
      ensures var c := FindContribution(old(contributions), tid, gid);
        && (c.None? ==> status == NotFound && State() == old(State()))
        && (c.Some? ==> status == NoContent && State() == RemoveContribution(old(State()), gid, c.value))
    {
      var c := FindContribution(contributions, tid, gid);
      if c.None? {
        return NotFound;
      }
      assert c.value.id == tid;
      contributions := Seqs.Filter(contributions, ContributionOutside(c.value.id, gid));
      goals := Adjust(goals, gid, -c.value.amount);
      status := NoContent;
    }
  }
}
