/**
  The Supabase client: three typed tables (conversations, agent actions,
  code-generation records), any other table as plain rows, and the
  generic `select`/`delete`. Identifiers and creation times come from one
  counter (a fresh identifier is larger than every earlier one). The
  database's own failures are a `fault` oracle on the request.

  The client writes the analysis as a JSON string, while the orchestrator
  reads it back as a mapping; here the analysis is kept as a structured
  record, which is what the orchestrator expects to find. What that read
  does as written is `Orchestrator.LabelEffectAsWritten`.
*/
module Store {
  import opened Wrappers
  import opened Text
  import opened IssueAnalysisModel
  import opened CodeGenerationModel

  const Conversations := "conversations"
  const AgentActions := "agent_actions"
  const CodeGenerations := "code_generations"

  /** A column value as the client sees it. */
  datatype Value =
    | VNull
    | VBool(b: bool)
    | VInt(i: int)
    | VStr(s: string)
    | VId(id: nat)
    | VList(items: seq<Value>)
    | VAnalysis(analysis: IssueAnalysis)
    | VFiles(files: seq<FileChange>)
    | VTests(tests: seq<TestFile>)

  type Row = map<string, Value>

  datatype Conversation = Conversation(
    id: nat,
    issueId: int,
    issueNumber: int,
    repoFullName: string,
    status: string,
    analysis: Option<IssueAnalysis>,
    createdAt: nat
  )

  datatype AgentAction = AgentAction(
    id: nat,
    conversationId: Option<nat>,
    agentType: string,
    actionType: string,
    payload: map<string, Value>,
    status: string,
    createdAt: nat
  )

  datatype GenerationRecord = GenerationRecord(
    id: nat,
    conversationId: nat,
    prNumber: Option<int>,
    filesChanged: seq<FileChange>,
    testsGenerated: seq<TestFile>,
    status: string,
    errorMessage: Option<string>,
    createdAt: nat
  )

  datatype StoreState = StoreState(
    conversations: seq<Conversation>,
    actions: seq<AgentAction>,
    generations: seq<GenerationRecord>,
    others: map<string, seq<Row>>,
    nextId: nat
  )

  datatype StoreError = ApiError(message: string) | NoData(message: string)

  /** A built query: equality filters, an optional (column, descending) order, an optional limit. */
  datatype Query = Query(table: string, filters: seq<(string, Value)>, order: Option<(string, bool)>, limit: Option<nat>)

  datatype StoreRequest =
    | InsertRow(table: string, row: Row)
    | UpdateRows(table: string, id: nat, changes: Row)
    | SelectRows(query: Query)
    | DeleteRows(table: string, id: nat)

  type Fault = StoreRequest -> Option<string>

  datatype StoreStep<T> = StoreStep(state: StoreState, result: T)

  // ---------------------------------------------------------------
  // The rows of a table
  // ---------------------------------------------------------------

  function AnalysisValue(a: Option<IssueAnalysis>): Value {
    if a.Some? then VAnalysis(a.value) else VNull
  }

  function OptionalInt(v: Option<int>): Value {
    if v.Some? then VInt(v.value) else VNull
  }

  function OptionalText(v: Option<string>): Value {
    if v.Some? then VStr(v.value) else VNull
  }

  function OptionalId(v: Option<nat>): Value {
    if v.Some? then VId(v.value) else VNull
  }

  /** A conversation row; its turns are the empty list written at creation, which nothing changes. */
  function ConversationRow(c: Conversation): Row {
    map["id" := VId(c.id), "issue_id" := VInt(c.issueId), "issue_number" := VInt(c.issueNumber),
        "repo_full_name" := VStr(c.repoFullName), "status" := VStr(c.status), "turns" := VList([]),
        "analysis" := AnalysisValue(c.analysis), "created_at" := VInt(c.createdAt)]
  }

  function ActionRow(a: AgentAction): Row {
    map["id" := VId(a.id), "conversation_id" := OptionalId(a.conversationId), "agent_type" := VStr(a.agentType),
        "action_type" := VStr(a.actionType), "payload" := VList([]), "status" := VStr(a.status),
        "created_at" := VInt(a.createdAt)]
  }

  function GenerationRow(g: GenerationRecord): Row {
    map["id" := VId(g.id), "conversation_id" := VId(g.conversationId), "pr_number" := OptionalInt(g.prNumber),
        "files_changed" := VFiles(g.filesChanged), "tests_generated" := VTests(g.testsGenerated),
        "status" := VStr(g.status), "error_message" := OptionalText(g.errorMessage),
        "created_at" := VInt(g.createdAt)]
  }

  function TableRows(s: StoreState, table: string): seq<Row> {
    if table == Conversations then seq(|s.conversations|, k requires 0 <= k < |s.conversations| => ConversationRow(s.conversations[k]))
    else if table == AgentActions then seq(|s.actions|, k requires 0 <= k < |s.actions| => ActionRow(s.actions[k]))
    else if table == CodeGenerations then seq(|s.generations|, k requires 0 <= k < |s.generations| => GenerationRow(s.generations[k]))
    else if table in s.others then s.others[table]
    else []
  }

  function Lookup(row: Row, column: string): Value {
    if column in row then row[column] else VNull
  }

  // ---------------------------------------------------------------
  // Query execution: filters, ordering, limit
  // ---------------------------------------------------------------

  predicate Matches(row: Row, filters: seq<(string, Value)>) {
    forall k :: 0 <= k < |filters| ==> Lookup(row, filters[k].0) == filters[k].1
  }

  /** The rows meeting every filter, in table order. */
  function Filter(rows: seq<Row>, filters: seq<(string, Value)>): (r: seq<Row>)
    ensures |r| <= |rows|
    ensures forall row :: row in r <==> row in rows && Matches(row, filters)
  {
    if |rows| == 0 then []
    else if Matches(rows[0], filters) then [rows[0]] + Filter(rows[1..], filters)
    else Filter(rows[1..], filters)
  }

  /** Rank of a value's type in the order; null sorts after everything, as in PostgreSQL. */
  function Rank(v: Value): nat {
    match v
    case VBool(_) => 0
    case VInt(_) => 1
    case VStr(_) => 2
    case VId(_) => 3
    case VNull => 5
    case _ => 4
  }

  /** Strings compare by code point. */
  predicate TextLe(x: string, y: string) {
    |x| == 0 || (|y| > 0 && (x[0] < y[0] || (x[0] == y[0] && TextLe(x[1..], y[1..]))))
  }

  lemma {:induction false} TextLeTotal(x: string, y: string)
    ensures TextLe(x, y) || TextLe(y, x)
  {
    if |x| > 0 && |y| > 0 && x[0] == y[0] {
      TextLeTotal(x[1..], y[1..]);
    }
  }

  predicate KeyLe(a: Value, b: Value) {
    if Rank(a) != Rank(b) then Rank(a) < Rank(b)
    else match (a, b)
      case (VBool(x), VBool(y)) => !x || y
      case (VInt(x), VInt(y)) => x <= y
      case (VStr(x), VStr(y)) => TextLe(x, y)
      case (VId(x), VId(y)) => x <= y
      case _ => true
  }

  lemma KeyLeTotal(a: Value, b: Value)
    ensures KeyLe(a, b) || KeyLe(b, a)
  {
    if a.VStr? && b.VStr? {
      TextLeTotal(a.s, b.s);
    }
  }

  predicate InOrder(x: Row, y: Row, column: string, desc: bool) {
    if desc then KeyLe(Lookup(y, column), Lookup(x, column)) else KeyLe(Lookup(x, column), Lookup(y, column))
  }

  predicate SortedBy(rows: seq<Row>, column: string, desc: bool) {
    forall k :: 0 <= k < |rows| - 1 ==> InOrder(rows[k], rows[k + 1], column, desc)
  }

  function Insert(x: Row, rows: seq<Row>, column: string, desc: bool): (r: seq<Row>)
    ensures multiset(r) == multiset(rows) + multiset{x}
    ensures |r| == |rows| + 1
    ensures r[0] == x || (|rows| > 0 && r[0] == rows[0])
    ensures SortedBy(rows, column, desc) ==> SortedBy(r, column, desc)
  {
    if |rows| == 0 then [x]
    else if InOrder(x, rows[0], column, desc) then [x] + rows
    else
      assert rows == [rows[0]] + rows[1..];
      var rest := Insert(x, rows[1..], column, desc);
      InsertBehindHead(x, rows, rest, column, desc);
      [rows[0]] + rest
  }

  /** Placing the head before the insertion into the tail keeps the order, when `x` does not go first. */
  lemma InsertBehindHead(x: Row, rows: seq<Row>, rest: seq<Row>, column: string, desc: bool)
    requires |rows| > 0 && !InOrder(x, rows[0], column, desc)
    requires |rest| > 0 && (rest[0] == x || (|rows| > 1 && rest[0] == rows[1]))
    requires SortedBy(rows[1..], column, desc) ==> SortedBy(rest, column, desc)
    ensures SortedBy(rows, column, desc) ==> SortedBy([rows[0]] + rest, column, desc)
  {
    KeyLeTotal(Lookup(x, column), Lookup(rows[0], column));
    if SortedBy(rows, column, desc) {
      assert SortedBy(rows[1..], column, desc);
      var r := [rows[0]] + rest;
      forall k | 0 <= k < |r| - 1
        ensures InOrder(r[k], r[k + 1], column, desc)
      {
        if k > 0 {
          assert r[k] == rest[k - 1] && r[k + 1] == rest[k];
        }
      }
    }
  }

  /** A stable insertion sort on one column. */
  function SortBy(rows: seq<Row>, column: string, desc: bool): (r: seq<Row>)
    ensures multiset(r) == multiset(rows)
    ensures SortedBy(r, column, desc)
  {
    if |rows| == 0 then []
    else
      assert rows == [rows[0]] + rows[1..];
      Insert(rows[0], SortBy(rows[1..], column, desc), column, desc)
  }

  function Execute(rows: seq<Row>, q: Query): seq<Row> {
    var matching := Filter(rows, q.filters);
    var ordered := if q.order.Some? then SortBy(matching, q.order.value.0, q.order.value.1) else matching;
    if q.limit.Some? && q.limit.value < |ordered| then ordered[..q.limit.value] else ordered
  }

  /** Every row a query returns is a row of the table meeting all of its filters. */
  lemma ExecuteFilters(rows: seq<Row>, q: Query)
    ensures forall row :: row in Execute(rows, q) ==> row in rows && Matches(row, q.filters)
  {
    var matching := Filter(rows, q.filters);
    var ordered := if q.order.Some? then SortBy(matching, q.order.value.0, q.order.value.1) else matching;
    assert forall row :: row in ordered ==> row in matching by {
      forall row | row in ordered ensures row in matching {
        assert row in multiset(ordered);
      }
    }
  }

  /** Without a limit, a query returns every matching row, each as often as the table holds it. */
  lemma ExecuteComplete(rows: seq<Row>, q: Query)
    requires q.limit.None?
    ensures multiset(Execute(rows, q)) == multiset(Filter(rows, q.filters))
  {
  }

  /** A limit bounds the number of rows returned; a zero limit returns none. */
  lemma ExecuteLimit(rows: seq<Row>, q: Query)
    requires q.limit.Some?
    ensures |Execute(rows, q)| <= q.limit.value
    ensures |Execute(rows, q)| == if |Filter(rows, q.filters)| < q.limit.value then |Filter(rows, q.filters)| else q.limit.value
  {
  }

  /** An ordered query returns its rows in that order. */
  lemma ExecuteOrdered(rows: seq<Row>, q: Query)
    requires q.order.Some?
    ensures SortedBy(Execute(rows, q), q.order.value.0, q.order.value.1)
  {
  }

  /** `order_by`: a leading "-" means descending, and every leading "-" is removed from the column. */
  function ParseOrderBy(orderBy: string): (r: Option<(string, bool)>)
    ensures r.None? <==> |orderBy| == 0
    ensures r.Some? ==> r.value.1 == (orderBy[0] == '-')
    ensures r.Some? ==> (|r.value.0| == 0 || r.value.0[0] != '-')
    ensures r.Some? ==> |r.value.0| <= |orderBy| && r.value.0 == orderBy[|orderBy| - |r.value.0|..]
    ensures r.Some? ==> forall k :: 0 <= k < |orderBy| - |r.value.0| ==> orderBy[k] == '-'
  {
    if |orderBy| == 0 then None else Some((LStripChar(orderBy, '-'), StartsWith(orderBy, "-")))
  }

  /** The query `select` builds from its arguments; a zero limit is ignored like a missing one. */
  function BuildQuery(table: string, filters: seq<(string, Value)>, limit: Option<nat>, orderBy: Option<string>)
    : (q: Query)
    ensures q.table == table && q.filters == filters
    ensures q.limit.Some? <==> limit.Some? && limit.value > 0
    ensures q.limit.Some? ==> q.limit == limit
    ensures orderBy.None? ==> q.order.None?
    ensures orderBy.Some? ==> q.order == ParseOrderBy(orderBy.value)
  {
    Query(table, filters,
          if orderBy.Some? then ParseOrderBy(orderBy.value) else None,
          if limit.Some? && limit.value > 0 then limit else None)
  }

  /** `select`: the query's rows, or the database's error. */
  function SelectResult(fault: Fault, s: StoreState, q: Query): Result<seq<Row>, StoreError> {
    match fault(SelectRows(q))
    case Some(m) => Err(ApiError(m))
    case None => Ok(Execute(TableRows(s, q.table), q))
  }

  // ---------------------------------------------------------------
  // Conversations
  // ---------------------------------------------------------------

  predicate IsConversationFor(c: Conversation, issueNumber: int, repo: string) {
    c.issueNumber == issueNumber && c.repoFullName == repo
  }

  /** The first conversation of the issue in that repository, if any. */
  function FindConversation(cs: seq<Conversation>, issueNumber: int, repo: string): (r: Option<Conversation>)
    ensures r.None? <==> forall k :: 0 <= k < |cs| ==> !IsConversationFor(cs[k], issueNumber, repo)
    ensures r.Some? ==> r.value in cs && IsConversationFor(r.value, issueNumber, repo)
  {
    if |cs| == 0 then None
    else if IsConversationFor(cs[0], issueNumber, repo) then Some(cs[0])
    else
      var rest := FindConversation(cs[1..], issueNumber, repo);
      assert forall k :: 1 <= k < |cs| ==> cs[k] == cs[1..][k - 1];
      rest
  }

  /** Index form of `FindConversation`: the match is the first one. */
  lemma {:induction false} FindConversationFirst(cs: seq<Conversation>, issueNumber: int, repo: string, k: nat)
    requires k < |cs| && IsConversationFor(cs[k], issueNumber, repo)
    requires forall j :: 0 <= j < k ==> !IsConversationFor(cs[j], issueNumber, repo)
    ensures FindConversation(cs, issueNumber, repo) == Some(cs[k])
    decreases k
  {
    if k > 0 {
      FindConversationFirst(cs[1..], issueNumber, repo, k - 1);
    }
  }

  function SetStatus(cs: seq<Conversation>, id: nat, status: string): (r: seq<Conversation>)
    ensures |r| == |cs|
    ensures forall k :: 0 <= k < |cs| ==> r[k] == if cs[k].id == id then cs[k].(status := status) else cs[k]
  {
    if |cs| == 0 then [] else [if cs[0].id == id then cs[0].(status := status) else cs[0]] + SetStatus(cs[1..], id, status)
  }

  function SetAnalysis(cs: seq<Conversation>, id: nat, a: IssueAnalysis): (r: seq<Conversation>)
    ensures |r| == |cs|
    ensures forall k :: 0 <= k < |cs| ==> r[k] == if cs[k].id == id then cs[k].(analysis := Some(a)) else cs[k]
  {
    if |cs| == 0 then [] else [if cs[0].id == id then cs[0].(analysis := Some(a)) else cs[0]] + SetAnalysis(cs[1..], id, a)
  }

  predicate HasConversation(cs: seq<Conversation>, id: nat) {
    exists k :: 0 <= k < |cs| && cs[k].id == id
  }

  function NewConversation(s: StoreState, issueId: int, issueNumber: int, repo: string): Conversation {
    Conversation(s.nextId, issueId, issueNumber, repo, StatusAnalyzing, None, s.nextId)
  }

  /** `create_conversation`: a new "analyzing" conversation with no analysis; its identifier is returned. */
  function CreateConversationStep(fault: Fault, s: StoreState, issueId: int, issueNumber: int, repo: string)
    : (r: StoreStep<Result<nat, StoreError>>)
    ensures r.result.Err? ==> r.state == s
    ensures r.result.Ok? ==>
      && r.result.value == s.nextId
      && r.state == s.(conversations := s.conversations + [NewConversation(s, issueId, issueNumber, repo)],
                       nextId := s.nextId + 1)
  {
    var c := NewConversation(s, issueId, issueNumber, repo);
    match fault(InsertRow(Conversations, ConversationRow(c)))
    case Some(m) => StoreStep(s, Err(ApiError(m)))
    case None => StoreStep(s.(conversations := s.conversations + [c], nextId := s.nextId + 1), Ok(c.id))
  }

  /** A freshly created conversation is what a lookup of its issue finds, unless an earlier one exists. */
  lemma CreatedConversationIsFound(fault: Fault, s: StoreState, issueId: int, issueNumber: int, repo: string)
    requires FindConversation(s.conversations, issueNumber, repo).None?
    ensures var r := CreateConversationStep(fault, s, issueId, issueNumber, repo);
      r.result.Ok? ==>
        FindConversation(r.state.conversations, issueNumber, repo) == Some(NewConversation(s, issueId, issueNumber, repo))
  {
    var r := CreateConversationStep(fault, s, issueId, issueNumber, repo);
    if r.result.Ok? {
      FindConversationFirst(r.state.conversations, issueNumber, repo, |s.conversations|);
    }
  }

  function ConversationQuery(issueNumber: int, repo: string): Query {
    Query(Conversations, [("issue_number", VInt(issueNumber)), ("repo_full_name", VStr(repo))], None, None)
  }

  /** `get_conversation`: the first conversation of that issue and repository, or nothing. */
  function GetConversationAt(fault: Fault, s: StoreState, issueNumber: int, repo: string)
    : Result<Option<Conversation>, StoreError>
  {
    match fault(SelectRows(ConversationQuery(issueNumber, repo)))
    case Some(m) => Err(ApiError(m))
    case None => Ok(FindConversation(s.conversations, issueNumber, repo))
  }

  /** `update_conversation_status`: sets the status of the conversation; no matching row is an error. */
  function UpdateStatusStep(fault: Fault, s: StoreState, id: nat, status: string)
    : (r: StoreStep<Outcome<StoreError>>)
    ensures r.result.Pass? <==> fault(UpdateRows(Conversations, id, map["status" := VStr(status)])).None?
                                && HasConversation(s.conversations, id)
    ensures r.result.Pass? ==> r.state == s.(conversations := SetStatus(s.conversations, id, status))
    ensures r.result.Fail? ==> r.state == s
  {
    match fault(UpdateRows(Conversations, id, map["status" := VStr(status)]))
    case Some(m) => StoreStep(s, Fail(ApiError(m)))
    case None =>
      if HasConversation(s.conversations, id) then StoreStep(s.(conversations := SetStatus(s.conversations, id, status)), Pass)
      else StoreStep(s, Fail(NoData("Failed to update conversation status")))
  }

  /** `update_conversation_analysis`: stores the analysis of the conversation; no matching row is an error. */
  function UpdateAnalysisStep(fault: Fault, s: StoreState, id: nat, a: IssueAnalysis)
    : (r: StoreStep<Outcome<StoreError>>)
    ensures r.result.Pass? <==> fault(UpdateRows(Conversations, id, map["analysis" := VAnalysis(a)])).None?
                                && HasConversation(s.conversations, id)
    ensures r.result.Pass? ==> r.state == s.(conversations := SetAnalysis(s.conversations, id, a))
    ensures r.result.Fail? ==> r.state == s
  {
    match fault(UpdateRows(Conversations, id, map["analysis" := VAnalysis(a)]))
    case Some(m) => StoreStep(s, Fail(ApiError(m)))
    case None =>
      if HasConversation(s.conversations, id) then StoreStep(s.(conversations := SetAnalysis(s.conversations, id, a)), Pass)
      else StoreStep(s, Fail(NoData("Failed to update conversation analysis")))
  }

  /** After a status update by identifier, the lookup by issue finds the same conversation with the new status. */
  lemma {:induction false} FindAfterSetStatus(cs: seq<Conversation>, issueNumber: int, repo: string, id: nat, status: string)
    requires FindConversation(cs, issueNumber, repo).Some? && FindConversation(cs, issueNumber, repo).value.id == id
    ensures FindConversation(SetStatus(cs, id, status), issueNumber, repo)
         == Some(FindConversation(cs, issueNumber, repo).value.(status := status))
  {
    if !IsConversationFor(cs[0], issueNumber, repo) {
      FindAfterSetStatus(cs[1..], issueNumber, repo, id, status);
      assert SetStatus(cs, id, status)[1..] == SetStatus(cs[1..], id, status);
    }
  }

  /** The same for an analysis update. */
  lemma {:induction false} FindAfterSetAnalysis(cs: seq<Conversation>, issueNumber: int, repo: string, id: nat, a: IssueAnalysis)
    requires FindConversation(cs, issueNumber, repo).Some? && FindConversation(cs, issueNumber, repo).value.id == id
    ensures FindConversation(SetAnalysis(cs, id, a), issueNumber, repo)
         == Some(FindConversation(cs, issueNumber, repo).value.(analysis := Some(a)))
  {
    if !IsConversationFor(cs[0], issueNumber, repo) {
      FindAfterSetAnalysis(cs[1..], issueNumber, repo, id, a);
      assert SetAnalysis(cs, id, a)[1..] == SetAnalysis(cs[1..], id, a);
    }
  }

  /** A conversation that a lookup found can be updated by its identifier. */
  lemma FoundConversationExists(cs: seq<Conversation>, issueNumber: int, repo: string)
    requires FindConversation(cs, issueNumber, repo).Some?
    ensures HasConversation(cs, FindConversation(cs, issueNumber, repo).value.id)
  {
    var c := FindConversation(cs, issueNumber, repo).value;
    var k :| 0 <= k < |cs| && cs[k] == c;
    assert cs[k].id == c.id;
  }

  // ---------------------------------------------------------------
  // Agent actions
  // ---------------------------------------------------------------

  function NewAction(s: StoreState, conversationId: Option<nat>, agentType: string, actionType: string,
                     payload: map<string, Value>): AgentAction
  {
    AgentAction(s.nextId, conversationId, agentType, actionType, payload, "success", s.nextId)
  }

  /** `log_agent_action`: one new "success" action; its identifier is returned. */
  function LogActionStep(fault: Fault, s: StoreState, conversationId: Option<nat>, agentType: string,
                         actionType: string, payload: map<string, Value>)
    : (r: StoreStep<Result<nat, StoreError>>)
    ensures r.result.Err? ==> r.state == s
    ensures r.result.Ok? ==>
      && r.result.value == s.nextId
      && r.state == s.(actions := s.actions + [NewAction(s, conversationId, agentType, actionType, payload)],
                       nextId := s.nextId + 1)
  {
    var a := NewAction(s, conversationId, agentType, actionType, payload);
    match fault(InsertRow(AgentActions, ActionRow(a)))
    case Some(m) => StoreStep(s, Err(ApiError(m)))
    case None => StoreStep(s.(actions := s.actions + [a], nextId := s.nextId + 1), Ok(a.id))
  }

  function ActionsQuery(conversationId: nat, limit: nat): Query {
    Query(AgentActions, [("conversation_id", VId(conversationId))], Some(("created_at", true)),
          Some(limit))
  }

  // ---------------------------------------------------------------
  // Code-generation records
  // ---------------------------------------------------------------

  function NewGeneration(s: StoreState, conversationId: nat, prNumber: Option<int>, files: seq<FileChange>,
                         tests: seq<TestFile>, status: string): GenerationRecord
  {
    GenerationRecord(s.nextId, conversationId, prNumber, files, tests, status, None, s.nextId)
  }

  /** `create_code_generation`: one new record; its identifier is returned. */
  function CreateGenerationStep(fault: Fault, s: StoreState, conversationId: nat, prNumber: Option<int>,
                                files: seq<FileChange>, tests: seq<TestFile>, status: string)
    : (r: StoreStep<Result<nat, StoreError>>)
    ensures r.result.Err? ==> r.state == s
    ensures r.result.Ok? ==>
      && r.result.value == s.nextId
      && r.state == s.(generations := s.generations + [NewGeneration(s, conversationId, prNumber, files, tests, status)],
                       nextId := s.nextId + 1)
  {
    var g := NewGeneration(s, conversationId, prNumber, files, tests, status);
    match fault(InsertRow(CodeGenerations, GenerationRow(g)))
    case Some(m) => StoreStep(s, Err(ApiError(m)))
    case None => StoreStep(s.(generations := s.generations + [g], nextId := s.nextId + 1), Ok(g.id))
  }

  /** The columns `update_code_generation_status` writes: always the status, the others only when given. */
  function GenerationChanges(status: string, prNumber: Option<int>, errorMessage: Option<string>): (changes: Row)
    ensures "status" in changes && changes["status"] == VStr(status)
    ensures "pr_number" in changes <==> prNumber.Some?
    ensures prNumber.Some? ==> changes["pr_number"] == VInt(prNumber.value)
    ensures "error_message" in changes <==> errorMessage.Some?
    ensures errorMessage.Some? ==> changes["error_message"] == VStr(errorMessage.value)
    ensures changes.Keys <= {"status", "pr_number", "error_message"}
  {
    var withStatus := map["status" := VStr(status)];
    var withPr := if prNumber.Some? then withStatus["pr_number" := VInt(prNumber.value)] else withStatus;
    if errorMessage.Some? then withPr["error_message" := VStr(errorMessage.value)] else withPr
  }

  function ChangeGeneration(g: GenerationRecord, status: string, prNumber: Option<int>, errorMessage: Option<string>)
    : GenerationRecord
  {
    g.(status := status,
       prNumber := if prNumber.Some? then prNumber else g.prNumber,
       errorMessage := if errorMessage.Some? then errorMessage else g.errorMessage)
  }

  function ChangeGenerations(gs: seq<GenerationRecord>, id: nat, status: string, prNumber: Option<int>,
                             errorMessage: Option<string>): (r: seq<GenerationRecord>)
    ensures |r| == |gs|
    ensures forall k :: 0 <= k < |gs| ==>
      r[k] == if gs[k].id == id then ChangeGeneration(gs[k], status, prNumber, errorMessage) else gs[k]
  {
    if |gs| == 0 then []
    else [if gs[0].id == id then ChangeGeneration(gs[0], status, prNumber, errorMessage) else gs[0]]
         + ChangeGenerations(gs[1..], id, status, prNumber, errorMessage)
  }

  predicate HasGeneration(gs: seq<GenerationRecord>, id: nat) {
    exists k :: 0 <= k < |gs| && gs[k].id == id
  }

  /** `update_code_generation_status`: no matching record is an error. */
  function UpdateGenerationStep(fault: Fault, s: StoreState, id: nat, status: string, prNumber: Option<int>,
                                errorMessage: Option<string>)
    : (r: StoreStep<Outcome<StoreError>>)
    ensures r.result.Pass? <==>
      fault(UpdateRows(CodeGenerations, id, GenerationChanges(status, prNumber, errorMessage))).None?
      && HasGeneration(s.generations, id)
    ensures r.result.Pass? ==>
      r.state == s.(generations := ChangeGenerations(s.generations, id, status, prNumber, errorMessage))
    ensures r.result.Fail? ==> r.state == s
  {
    match fault(UpdateRows(CodeGenerations, id, GenerationChanges(status, prNumber, errorMessage)))
    case Some(m) => StoreStep(s, Fail(ApiError(m)))
    case None =>
      if HasGeneration(s.generations, id) then
        StoreStep(s.(generations := ChangeGenerations(s.generations, id, status, prNumber, errorMessage)), Pass)
      else StoreStep(s, Fail(NoData("Failed to update code generation status")))
  }

  /** Every generation record has an identifier below the next one handed out. */
  predicate GenerationIdsBelow(s: StoreState) {
    forall k :: 0 <= k < |s.generations| ==> s.generations[k].id < s.nextId
  }

  /** Updating the newest record, whose identifier no older record shares, changes that record alone. */
  lemma ChangeNewestGeneration(gs: seq<GenerationRecord>, g: GenerationRecord, status: string,
                               prNumber: Option<int>, errorMessage: Option<string>)
    requires forall k :: 0 <= k < |gs| ==> gs[k].id < g.id
    ensures ChangeGenerations(gs + [g], g.id, status, prNumber, errorMessage)
         == gs + [ChangeGeneration(g, status, prNumber, errorMessage)]
  {
    var r := ChangeGenerations(gs + [g], g.id, status, prNumber, errorMessage);
    assert forall k :: 0 <= k < |gs| ==> r[k] == gs[k] by {
      forall k | 0 <= k < |gs| ensures r[k] == gs[k] {
        assert (gs + [g])[k] == gs[k];
      }
    }
  }

  /** Omitted fields keep their stored value: a status-only update leaves the pull request and error alone. */
  lemma ChangeGenerationKeeps(g: GenerationRecord, status: string)
    ensures ChangeGeneration(g, status, None, None) == g.(status := status)
  {
  }

  /** The query `get_workflow_status` runs: the newest record of a conversation. */
  function LatestGenerationQuery(conversationId: nat): Query {
    BuildQuery(CodeGenerations, [("conversation_id", VId(conversationId))], Some(1), Some("-created_at"))
  }

  // ---------------------------------------------------------------
  // Delete
  // ---------------------------------------------------------------

  function WithoutRow(rows: seq<Row>, id: nat): (r: seq<Row>)
    ensures forall row :: row in r <==> row in rows && Lookup(row, "id") != VId(id)
  {
    if |rows| == 0 then []
    else (if Lookup(rows[0], "id") == VId(id) then [] else [rows[0]]) + WithoutRow(rows[1..], id)
  }

  function WithoutId<T(!new)>(items: seq<T>, idOf: T -> nat, id: nat): (r: seq<T>)
    ensures forall x :: x in r <==> x in items && idOf(x) != id
    ensures (forall k :: 0 <= k < |items| ==> idOf(items[k]) != id) ==> r == items
  {
    if |items| == 0 then []
    else (if idOf(items[0]) == id then [] else [items[0]]) + WithoutId(items[1..], idOf, id)
  }

  /** `delete`: removes the rows with that identifier; nothing matching is not an error. */
  function DeleteStep(fault: Fault, s: StoreState, table: string, id: nat): (r: StoreStep<Outcome<StoreError>>)
    ensures r.result.Fail? <==> fault(DeleteRows(table, id)).Some?
    ensures r.result.Fail? ==> r.state == s
  {
    match fault(DeleteRows(table, id))
    case Some(m) => StoreStep(s, Fail(ApiError(m)))
    case None =>
      var next :=
        if table == Conversations then s.(conversations := WithoutId(s.conversations, (c: Conversation) => c.id, id))
        else if table == AgentActions then s.(actions := WithoutId(s.actions, (a: AgentAction) => a.id, id))
        else if table == CodeGenerations then s.(generations := WithoutId(s.generations, (g: GenerationRecord) => g.id, id))
        else if table in s.others then s.(others := s.others[table := WithoutRow(s.others[table], id)])
        else s;
      StoreStep(next, Pass)
  }

  /** Deleting an identifier no conversation has changes nothing and still succeeds. */
  lemma DeleteMissingConversation(fault: Fault, s: StoreState, id: nat)
    requires fault(DeleteRows(Conversations, id)).None?
    requires forall k :: 0 <= k < |s.conversations| ==> s.conversations[k].id != id
    ensures DeleteStep(fault, s, Conversations, id) == StoreStep(s, Pass)
  {
  }

  /** After a delete no conversation has that identifier. */
  lemma DeleteRemovesConversation(fault: Fault, s: StoreState, id: nat)
    ensures var r := DeleteStep(fault, s, Conversations, id);
      r.result.Pass? ==> forall c :: c in r.state.conversations ==> c.id != id && c in s.conversations
  {
  }

  class Client {
    const fault: Fault
    var conversations: seq<Conversation>
    var actions: seq<AgentAction>
    var generations: seq<GenerationRecord>
    var others: map<string, seq<Row>>
    var nextId: nat

    function Snapshot(): StoreState
      reads this
    {
      StoreState(conversations, actions, generations, others, nextId)
    }

    constructor (fault: Fault, initial: StoreState)
      ensures this.fault == fault && Snapshot() == initial
    {
      this.fault := fault;
      conversations := initial.conversations;
      actions := initial.actions;
      generations := initial.generations;
      others := initial.others;
      nextId := initial.nextId;
    }

    method CreateConversation(issueId: int, issueNumber: int, repo: string) returns (r: Result<nat, StoreError>)
      modifies this
      ensures StoreStep(Snapshot(), r) == CreateConversationStep(fault, old(Snapshot()), issueId, issueNumber, repo)
    {
      var c := Conversation(nextId, issueId, issueNumber, repo, StatusAnalyzing, None, nextId);
      var failure := fault(InsertRow(Conversations, ConversationRow(c)));
      if failure.Some? {
        return Err(ApiError(failure.value));
      }
      conversations := conversations + [c];
      nextId := nextId + 1;
      r := Ok(c.id);
    }

    method GetConversation(issueNumber: int, repo: string) returns (r: Result<Option<Conversation>, StoreError>)
      ensures r == GetConversationAt(fault, Snapshot(), issueNumber, repo)
    {
      var failure := fault(SelectRows(ConversationQuery(issueNumber, repo)));
      if failure.Some? {
        return Err(ApiError(failure.value));
      }
      r := Ok(FindConversation(conversations, issueNumber, repo));
    }

    method UpdateConversationStatus(id: nat, status: string) returns (r: Outcome<StoreError>)
      modifies this
      ensures StoreStep(Snapshot(), r) == UpdateStatusStep(fault, old(Snapshot()), id, status)
    {
      var failure := fault(UpdateRows(Conversations, id, map["status" := VStr(status)]));
      if failure.Some? {
        return Fail(ApiError(failure.value));
      }
      if !HasConversation(conversations, id) {
        return Fail(NoData("Failed to update conversation status"));
      }
      conversations := SetStatus(conversations, id, status);
      r := Pass;
    }

    method UpdateConversationAnalysis(id: nat, a: IssueAnalysis) returns (r: Outcome<StoreError>)
      modifies this
      ensures StoreStep(Snapshot(), r) == UpdateAnalysisStep(fault, old(Snapshot()), id, a)
    {
      var failure := fault(UpdateRows(Conversations, id, map["analysis" := VAnalysis(a)]));
      if failure.Some? {
        return Fail(ApiError(failure.value));
      }
      if !HasConversation(conversations, id) {
        return Fail(NoData("Failed to update conversation analysis"));
      }
      conversations := SetAnalysis(conversations, id, a);
      r := Pass;
    }

    method LogAgentAction(conversationId: Option<nat>, agentType: string, actionType: string,
                          payload: map<string, Value>) returns (r: Result<nat, StoreError>)
      modifies this
      ensures StoreStep(Snapshot(), r) == LogActionStep(fault, old(Snapshot()), conversationId, agentType, actionType, payload)
    {
      var a := AgentAction(nextId, conversationId, agentType, actionType, payload, "success", nextId);
      var failure := fault(InsertRow(AgentActions, ActionRow(a)));
      if failure.Some? {
        return Err(ApiError(failure.value));
      }
      actions := actions + [a];
      nextId := nextId + 1;
      r := Ok(a.id);
    }

    /** `get_agent_actions`: the newest actions of a conversation first, at most `limit` of them. */
    method GetAgentActions(conversationId: nat, limit: nat) returns (r: Result<seq<Row>, StoreError>)
      ensures r == SelectResult(fault, Snapshot(), ActionsQuery(conversationId, limit))
    {
      r := SelectResult(fault, Snapshot(), ActionsQuery(conversationId, limit));
    }

    method CreateCodeGeneration(conversationId: nat, prNumber: Option<int>, files: seq<FileChange>,
                                tests: seq<TestFile>, status: string) returns (r: Result<nat, StoreError>)
      modifies this
      ensures StoreStep(Snapshot(), r)
           == CreateGenerationStep(fault, old(Snapshot()), conversationId, prNumber, files, tests, status)
    {
      var g := GenerationRecord(nextId, conversationId, prNumber, files, tests, status, None, nextId);
      var failure := fault(InsertRow(CodeGenerations, GenerationRow(g)));
      if failure.Some? {
        return Err(ApiError(failure.value));
      }
      generations := generations + [g];
      nextId := nextId + 1;
      r := Ok(g.id);
    }

    /** Builds the update payload column by column, then applies it to the record. */
    method UpdateCodeGenerationStatus(id: nat, status: string, prNumber: Option<int>, errorMessage: Option<string>)
      returns (r: Outcome<StoreError>)
      modifies this
      ensures StoreStep(Snapshot(), r) == UpdateGenerationStep(fault, old(Snapshot()), id, status, prNumber, errorMessage)
    {
      var updateData: Row := map["status" := VStr(status)];
      if prNumber.Some? {
        updateData := updateData["pr_number" := VInt(prNumber.value)];
      }
      if errorMessage.Some? {
        updateData := updateData["error_message" := VStr(errorMessage.value)];
      }
      assert updateData == GenerationChanges(status, prNumber, errorMessage);
      var failure := fault(UpdateRows(CodeGenerations, id, updateData));
      if failure.Some? {
        return Fail(ApiError(failure.value));
      }
      if !HasGeneration(generations, id) {
        return Fail(NoData("Failed to update code generation status"));
      }
      generations := ChangeGenerations(generations, id, status, prNumber, errorMessage);
      r := Pass;
    }

    /** `select`: builds the query step by step (filters, then order, then limit) and runs it. */
    method Select(table: string, filters: seq<(string, Value)>, limit: Option<nat>, orderBy: Option<string>)
      returns (r: Result<seq<Row>, StoreError>)
      ensures r == SelectResult(fault, Snapshot(), BuildQuery(table, filters, limit, orderBy))
    {
      var query := Query(table, [], None, None);
      var i := 0;
      while i < |filters|
        invariant 0 <= i <= |filters|
        invariant query == Query(table, filters[..i], None, None)
      {
        query := query.(filters := query.filters + [filters[i]]);
        assert filters[..i + 1] == filters[..i] + [filters[i]];
        i := i + 1;
      }
      assert filters[..|filters|] == filters;
      if orderBy.Some? && |orderBy.value| > 0 {
        var desc := StartsWith(orderBy.value, "-");
        var column := LStripChar(orderBy.value, '-');
        query := query.(order := Some((column, desc)));
      }
      if limit.Some? && limit.value > 0 {
        query := query.(limit := limit);
      }
      r := SelectResult(fault, Snapshot(), query);
    }

    method Delete(table: string, id: nat) returns (r: Outcome<StoreError>)
      modifies this
      ensures StoreStep(Snapshot(), r) == DeleteStep(fault, old(Snapshot()), table, id)
    {
      var failure := fault(DeleteRows(table, id));
      if failure.Some? {
        return Fail(ApiError(failure.value));
      }
      if table == Conversations {
        conversations := WithoutId(conversations, (c: Conversation) => c.id, id);
      } else if table == AgentActions {
        actions := WithoutId(actions, (a: AgentAction) => a.id, id);
      } else if table == CodeGenerations {
        generations := WithoutId(generations, (g: GenerationRecord) => g.id, id);
      } else if table in others {
        others := others[table := WithoutRow(others[table], id)];
      }
      r := Pass;
    }
  }
}
