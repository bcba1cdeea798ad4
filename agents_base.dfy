/**
  The base agent: message building, the retried call to the reasoning
  backend, action logging, conversation bookkeeping and comment
  signatures.

  An agent works on three shared collaborators: the reasoning backend
  (`Llm`), the GitHub client (`Vcs.Repo`) and the store client
  (`Store.Client`). Their combined state is a `World`; every agent
  operation has a pure specification from one `World` to an `Effect`
  (the new world and a result or the failure that escaped), and the agent
  classes perform the operation step by step and are proved to match.
*/
module AgentBase {
  import opened Wrappers
  import opened Text
  import opened Vcs
  import opened Store
  import opened IssueAnalysisModel

  datatype Message = SystemMessage(content: string) | HumanMessage(content: string) | AiMessage(content: string)

  /** The backend's answer to the call with the given number (calls are counted from the start). */
  type Backend = (seq<Message>, nat) -> Result<string, string>

  /** An exception that leaves an agent operation. */
  datatype Failure =
    | VcsFailed(vcsError: VcsError)
    | StoreFailed(storeError: StoreError)
    | RetryFailed(lastError: string)
    | ParseFailed(reason: string)
    | AttributeFailed(reason: string)

  datatype World = World(repo: RepoState, store: StoreState, llmCalls: nat)

  /** What the collaborators decide by themselves. */
  datatype Env = Env(vcs: Service, fault: Fault, backend: Backend, repoName: string)

  datatype Effect<T> = Effect(world: World, result: Result<T, Failure>)

  /** The fields of a `ConversationState` an agent returns (it holds no turns). */
  datatype StateView = StateView(issueId: int, issueNumber: int, repoFullName: string, status: string,
                                 analysis: Option<IssueAnalysis>)

  function ViewOf(c: ConversationState): StateView
    reads c
  {
    StateView(c.issueId, c.issueNumber, c.repoFullName, c.status, c.currentAnalysis)
  }

  /** What distinguishes one agent class from another. */
  datatype Persona = Persona(agentName: string, systemPrompt: string, domainContext: string, customize: string -> string)

  // ---------------------------------------------------------------
  // Lifting collaborator steps into the world
  // ---------------------------------------------------------------

  function OnStore<T>(w: World, st: StoreStep<Result<T, StoreError>>): (r: Effect<T>)
    ensures r.world == w.(store := st.state)
    ensures r.result.Ok? <==> st.result.Ok?
    ensures st.result.Ok? ==> r.result.value == st.result.value
  {
    Effect(w.(store := st.state), if st.result.Ok? then Ok(st.result.value) else Err(StoreFailed(st.result.error)))
  }

  function OnStoreOutcome(w: World, st: StoreStep<Outcome<StoreError>>): (r: Effect<()>)
    ensures r.world == w.(store := st.state)
    ensures r.result.Ok? <==> st.result.Pass?
  {
    Effect(w.(store := st.state), if st.result.Pass? then Ok(()) else Err(StoreFailed(st.result.error)))
  }

  function OnRepo(w: World, st: Step<Outcome<VcsError>>): (r: Effect<()>)
    ensures r.world == w.(repo := st.state)
    ensures r.result.Ok? <==> st.result.Pass?
  {
    Effect(w.(repo := st.state), if st.result.Pass? then Ok(()) else Err(VcsFailed(st.result.error)))
  }

  // ---------------------------------------------------------------
  // Messages
  // ---------------------------------------------------------------

  /** One "- key: value" line per entry of the additional context, in order. */
  function ContextLines(context: seq<(string, string)>): (lines: seq<string>)
    ensures |lines| == |context|
    ensures forall k :: 0 <= k < |context| ==> lines[k] == "- " + context[k].0 + ": " + context[k].1
  {
    seq(|context|, k requires 0 <= k < |context| => "- " + context[k].0 + ": " + context[k].1)
  }

  const DomainHeading := "\n\n## Domain Context\n"
  const ContextHeading := "\n\n## Additional Context\n"

  /** The system text before `customize_prompt` is applied. */
  function PlainSystemText(p: Persona, context: seq<(string, string)>): string {
    p.systemPrompt
    + (if |p.domainContext| > 0 then DomainHeading + p.domainContext else "")
    + (if |context| > 0 then ContextHeading + Join(ContextLines(context), "\n") else "")
  }

  function SystemText(p: Persona, context: seq<(string, string)>): string {
    p.customize(PlainSystemText(p, context))
  }

  /**
    The sections of the system text: the agent's prompt comes first, the
    domain section is there when the domain context is non-empty, the
    additional section closes the text when that context is non-empty, and
    with neither the text is the prompt alone.
  */
  lemma SystemTextSections(p: Persona, context: seq<(string, string)>)
    ensures StartsWith(PlainSystemText(p, context), p.systemPrompt)
    ensures |p.domainContext| > 0 ==> Contains(PlainSystemText(p, context), DomainHeading + p.domainContext)
    ensures |context| > 0 ==>
      EndsWith(PlainSystemText(p, context), ContextHeading + Join(ContextLines(context), "\n"))
    ensures |context| == 0 && |p.domainContext| == 0 ==> PlainSystemText(p, context) == p.systemPrompt
    ensures SystemText(p, context) == p.customize(PlainSystemText(p, context))
  {
    var t := PlainSystemText(p, context);
    var domain := if |p.domainContext| > 0 then DomainHeading + p.domainContext else "";
    var extra := if |context| > 0 then ContextHeading + Join(ContextLines(context), "\n") else "";
    assert t == p.systemPrompt + domain + extra;
    assert t[..|p.systemPrompt|] == p.systemPrompt;
    if |p.domainContext| > 0 {
      ContainsAt(t, domain, |p.systemPrompt|);
    }
    if |context| > 0 {
      assert t[|t| - |extra|..] == extra;
    }
  }

  /** The messages of one call: the system text, the history in order, then the user's input. */
  predicate MessagesFor(messages: seq<Message>, system: string, history: seq<Message>, userInput: string) {
    && |messages| == |history| + 2
    && messages[0] == SystemMessage(system)
    && messages[1..|messages| - 1] == history
    && messages[|messages| - 1] == HumanMessage(userInput)
  }

  function Messages(p: Persona, userInput: string, history: seq<Message>, context: seq<(string, string)>)
    : (messages: seq<Message>)
    ensures MessagesFor(messages, SystemText(p, context), history, userInput)
  {
    [SystemMessage(SystemText(p, context))] + history + [HumanMessage(userInput)]
  }

  // ---------------------------------------------------------------
  // Retried backend calls
  // ---------------------------------------------------------------

  /** The number of attempts `stop_after_attempt(n)` allows: the first attempt always happens. */
  function Attempts(maxRetries: int): (n: nat)
    ensures n >= 1
    ensures maxRetries >= 1 ==> n == maxRetries
  {
    if maxRetries < 1 then 1 else maxRetries
  }

  datatype Attempted = Attempted(calls: nat, answer: Result<string, Failure>)

  /** Up to `remaining` calls, numbered from `start`, stopping at the first answer. */
  function Retry(backend: Backend, messages: seq<Message>, start: nat, remaining: nat): Attempted
    requires remaining >= 1
    decreases remaining
  {
    match backend(messages, start)
    case Ok(text) => Attempted(1, Ok(text))
    case Err(e) =>
      if remaining == 1 then Attempted(1, Err(RetryFailed(e)))
      else
        var rest := Retry(backend, messages, start + 1, remaining - 1);
        Attempted(rest.calls + 1, rest.answer)
  }

  /** At least one call and never more than allowed. */
  lemma {:induction false} RetryBounds(backend: Backend, messages: seq<Message>, start: nat, remaining: nat)
    requires remaining >= 1
    ensures 1 <= Retry(backend, messages, start, remaining).calls <= remaining
    decreases remaining
  {
    if backend(messages, start).Err? && remaining > 1 {
      RetryBounds(backend, messages, start + 1, remaining - 1);
    }
  }

  /** The call with number `n` failed. */
  predicate CallFails(backend: Backend, messages: seq<Message>, n: nat) {
    backend(messages, n).Err?
  }

  /** An answer is the first success, and every call before it failed. */
  lemma {:induction false} RetryFirstSuccess(backend: Backend, messages: seq<Message>, start: nat, remaining: nat)
    requires remaining >= 1
    ensures var a := Retry(backend, messages, start, remaining);
      a.answer.Ok? ==>
        && a.calls >= 1
        && backend(messages, start + a.calls - 1) == Ok(a.answer.value)
        && forall n :: start <= n < start + a.calls - 1 ==> CallFails(backend, messages, n)
    decreases remaining
  {
    if backend(messages, start).Err? && remaining > 1 {
      RetryFirstSuccess(backend, messages, start + 1, remaining - 1);
    }
  }

  /** A failure means every allowed call failed, whatever kind of error each was. */
  lemma {:induction false} RetryExhausted(backend: Backend, messages: seq<Message>, start: nat, remaining: nat)
    requires remaining >= 1
    ensures var a := Retry(backend, messages, start, remaining);
      a.answer.Err? ==>
        && a.calls == remaining
        && (forall n :: start <= n < start + remaining ==> CallFails(backend, messages, n))
        && CallFails(backend, messages, start + remaining - 1)
        && a.answer.error == RetryFailed(backend(messages, start + remaining - 1).error)
    decreases remaining
  {
    if backend(messages, start).Err? && remaining > 1 {
      RetryExhausted(backend, messages, start + 1, remaining - 1);
    }
  }

  /** `invoke_with_retry` as a world step: the calls made are counted. */
  function InvokeEffect(env: Env, w: World, messages: seq<Message>, maxRetries: int): Effect<string> {
    var a := Retry(env.backend, messages, w.llmCalls, Attempts(maxRetries));
    Effect(w.(llmCalls := w.llmCalls + a.calls), a.answer)
  }

  // ---------------------------------------------------------------
  // Store bookkeeping
  // ---------------------------------------------------------------

  /** `log_action`: one action under the agent's name. */
  function LogEffect(env: Env, p: Persona, w: World, conversationId: Option<nat>, actionType: string,
                     payload: map<string, Value>): Effect<nat>
  {
    OnStore(w, LogActionStep(env.fault, w.store, conversationId, p.agentName, actionType, payload))
  }

  /** `log_action` writes exactly one action, with the agent's name as its type, and nothing else. */
  lemma LogEffectWritesOne(env: Env, p: Persona, w: World, conversationId: Option<nat>, actionType: string,
                           payload: map<string, Value>)
    ensures var r := LogEffect(env, p, w, conversationId, actionType, payload);
      && r.world.repo == w.repo && r.world.llmCalls == w.llmCalls
      && (r.result.Ok? ==>
            && r.world.store.actions == w.store.actions + [NewAction(w.store, conversationId, p.agentName, actionType, payload)]
            && r.result.value == w.store.nextId
            && r.world.store.conversations == w.store.conversations
            && r.world.store.generations == w.store.generations)
      && (r.result.Err? ==> r.world == w)
  {
  }

  /** `update_conversation_state`: the status always, the analysis only when one is given. */
  function UpdateStateStep(fault: Fault, s: StoreState, id: nat, status: string, analysis: Option<IssueAnalysis>)
    : StoreStep<Outcome<StoreError>>
  {
    var first := UpdateStatusStep(fault, s, id, status);
    if first.result.Fail? || analysis.None? then first
    else UpdateAnalysisStep(fault, first.state, id, analysis.value)
  }

  /**
    Without an analysis only the status is written; on success every
    conversation with that identifier carries the status (and the analysis
    when one was given), and every other conversation is unchanged.
  */
  lemma UpdateStateWrites(fault: Fault, s: StoreState, id: nat, status: string, analysis: Option<IssueAnalysis>)
    ensures analysis.None? ==> UpdateStateStep(fault, s, id, status, analysis) == UpdateStatusStep(fault, s, id, status)
    ensures var r := UpdateStateStep(fault, s, id, status, analysis);
      r.result.Pass? ==>
        && |r.state.conversations| == |s.conversations|
        && (forall k :: 0 <= k < |s.conversations| && s.conversations[k].id == id ==>
              r.state.conversations[k].status == status
              && r.state.conversations[k].analysis == (if analysis.Some? then analysis else s.conversations[k].analysis))
        && (forall k :: 0 <= k < |s.conversations| && s.conversations[k].id != id ==>
              r.state.conversations[k] == s.conversations[k])
        && r.state.actions == s.actions && r.state.generations == s.generations
  {
  }

  function UpdateStateEffect(env: Env, w: World, id: nat, status: string, analysis: Option<IssueAnalysis>): Effect<()> {
    OnStoreOutcome(w, UpdateStateStep(env.fault, w.store, id, status, analysis))
  }

  /** `get_or_create_conversation`: the existing conversation's identifier, or a new conversation's. */
  function GetOrCreateStep(fault: Fault, s: StoreState, issueNumber: int, issueId: int, repo: string)
    : StoreStep<Result<nat, StoreError>>
  {
    match GetConversationAt(fault, s, issueNumber, repo)
    case Err(e) => StoreStep(s, Err(e))
    case Ok(found) =>
      if found.Some? then StoreStep(s, Ok(found.value.id))
      else CreateConversationStep(fault, s, issueId, issueNumber, repo)
  }

  /**
    An existing conversation is reused and nothing is created; otherwise
    exactly one conversation is created, and a later lookup finds it.
  */
  lemma GetOrCreateReuses(fault: Fault, s: StoreState, issueNumber: int, issueId: int, repo: string)
    ensures var r := GetOrCreateStep(fault, s, issueNumber, issueId, repo);
      && (GetConversationAt(fault, s, issueNumber, repo).Ok? && FindConversation(s.conversations, issueNumber, repo).Some? ==>
            r == StoreStep(s, Ok(FindConversation(s.conversations, issueNumber, repo).value.id)))
      && (r.result.Ok? && FindConversation(s.conversations, issueNumber, repo).None? ==>
            && r.state.conversations == s.conversations + [NewConversation(s, issueId, issueNumber, repo)]
            && r.result.value == s.nextId
            && FindConversation(r.state.conversations, issueNumber, repo).Some?
            && FindConversation(r.state.conversations, issueNumber, repo).value.id == r.result.value)
  {
    if FindConversation(s.conversations, issueNumber, repo).None? {
      CreatedConversationIsFound(fault, s, issueId, issueNumber, repo);
    }
  }

  // ---------------------------------------------------------------
  // Comments
  // ---------------------------------------------------------------

  function Signature(agentName: string): string {
    "\n\n---\n*" + agentName + " \U{1F916}*"
  }

  /** `format_github_comment`: the content, signed by the agent when asked. */
  function FormatComment(agentName: string, content: string, includeSignature: bool): (r: string)
    ensures StartsWith(r, content)
    ensures includeSignature ==> EndsWith(r, Signature(agentName)) && |r| == |content| + |Signature(agentName)|
    ensures !includeSignature ==> r == content
  {
    if includeSignature then content + Signature(agentName) else content
  }

  function CommentEffect(env: Env, w: World, issue: int, body: string): Effect<()> {
    OnRepo(w, CommentStep(env.vcs, w.repo, issue, body))
  }

  /** `str(e)` of the exception a failure stands for (the wording of each library is approximated). */
  function ErrorText(f: Failure): (text: string)
    ensures f.StoreFailed? ==> text == f.storeError.message
    ensures f.ParseFailed? ==> text == f.reason
  {
    match f
    case VcsFailed(HttpError(status, message)) => IntToString(status) + " " + message
    case VcsFailed(AttributeError(message)) => message
    case StoreFailed(e) => e.message
    case RetryFailed(last) => "RetryError: " + last
    case ParseFailed(reason) => reason
    case AttributeFailed(reason) => reason
  }

  /** `x or default` on an optional text: an absent or empty text gives the default. */
  function TextOr(t: Option<string>, default: string): (r: string)
    ensures t.Some? && |t.value| > 0 ==> r == t.value
    ensures t.None? || |t.value| == 0 ==> r == default
  {
    if t.Some? && |t.value| > 0 then t.value else default
  }

  /** The backend that answers the agents' calls; it counts the calls made. */
  class Llm {
    const backend: Backend
    var calls: nat

    constructor (backend: Backend)
      ensures this.backend == backend && calls == 0
    {
      this.backend := backend;
      calls := 0;
    }

    /** `invoke_llm`: one call. */
    method Invoke(messages: seq<Message>) returns (r: Result<string, string>)
      modifies this
      ensures calls == old(calls) + 1
      ensures r == backend(messages, old(calls))
    {
      r := backend(messages, calls);
      calls := calls + 1;
    }
  }

  /** `BaseAgent`: a persona working on the shared collaborators. */
  class BaseAgent {
    const persona: Persona
    const llm: Llm
    const vcs: Repo
    const db: Client

    function Snapshot(): World
      reads llm, vcs, db
    {
      World(vcs.Snapshot(), db.Snapshot(), llm.calls)
    }

    function Environment(): Env {
      Env(vcs.service, db.fault, llm.backend, vcs.name)
    }

    constructor (persona: Persona, llm: Llm, vcs: Repo, db: Client)
      ensures this.persona == persona && this.llm == llm && this.vcs == vcs && this.db == db
    {
      this.persona := persona;
      this.llm := llm;
      this.vcs := vcs;
      this.db := db;
    }

    /** `build_messages`: system text, then the history, then the user's input. */
    method BuildMessages(userInput: string, history: seq<Message>, context: seq<(string, string)>)
      returns (messages: seq<Message>)
      ensures messages == Messages(persona, userInput, history, context)
      ensures MessagesFor(messages, SystemText(persona, context), history, userInput)
    {
      var text := persona.systemPrompt;
      if |persona.domainContext| > 0 {
        text := text + (DomainHeading + persona.domainContext);
      }
      if |context| > 0 {
        text := text + (ContextHeading + Join(ContextLines(context), "\n"));
      }
      assert text == PlainSystemText(persona, context);
      text := persona.customize(text);
      messages := [SystemMessage(text)];
      if |history| > 0 {
        messages := messages + history;
      }
      messages := messages + [HumanMessage(userInput)];
      assert messages == [SystemMessage(text)] + history + [HumanMessage(userInput)];
    }

    /** `invoke_with_retry`: calls the backend until it answers or the attempts run out. */
    method InvokeWithRetry(messages: seq<Message>, maxRetries: int) returns (r: Result<string, Failure>)
      modifies llm
      ensures Effect(Snapshot(), r) == InvokeEffect(Environment(), old(Snapshot()), messages, maxRetries)
    {
      var attempts := Attempts(maxRetries);
      var start := llm.calls;
      var attempt := 0;
      while true
        invariant 0 <= attempt < attempts
        invariant llm.calls == start + attempt
        invariant vcs.Snapshot() == old(vcs.Snapshot()) && db.Snapshot() == old(db.Snapshot())
        invariant var rest := Retry(llm.backend, messages, start + attempt, attempts - attempt);
          Retry(llm.backend, messages, start, attempts) == Attempted(rest.calls + attempt, rest.answer)
        decreases attempts - attempt
      {
        var answer := llm.Invoke(messages);
        if answer.Ok? {
          return Ok(answer.value);
        }
        if attempt + 1 == attempts {
          return Err(RetryFailed(answer.error));
        }
        attempt := attempt + 1;
      }
    }

    method LogAction(actionType: string, payload: map<string, Value>, conversationId: Option<nat>)
      returns (r: Result<nat, Failure>)
      modifies db
      ensures Effect(Snapshot(), r) == LogEffect(Environment(), persona, old(Snapshot()), conversationId, actionType, payload)
    {
      var logged := db.LogAgentAction(conversationId, persona.agentName, actionType, payload);
      r := if logged.Ok? then Ok(logged.value) else Err(StoreFailed(logged.error));
    }

    method UpdateConversationState(id: nat, status: string, analysis: Option<IssueAnalysis>)
      returns (r: Result<(), Failure>)
      modifies db
      ensures Effect(Snapshot(), r) == UpdateStateEffect(Environment(), old(Snapshot()), id, status, analysis)
    {
      var written := db.UpdateConversationStatus(id, status);
      if written.Fail? {
        return Err(StoreFailed(written.error));
      }
      if analysis.Some? {
        written := db.UpdateConversationAnalysis(id, analysis.value);
        if written.Fail? {
          return Err(StoreFailed(written.error));
        }
      }
      r := Ok(());
    }

    method GetOrCreateConversation(issueNumber: int, issueId: int, repo: string) returns (r: Result<nat, Failure>)
      modifies db
      ensures Effect(Snapshot(), r) == OnStore(old(Snapshot()), GetOrCreateStep(db.fault, old(db.Snapshot()), issueNumber, issueId, repo))
    {
      var found := db.GetConversation(issueNumber, repo);
      if found.Err? {
        return Err(StoreFailed(found.error));
      }
      if found.value.Some? {
        return Ok(found.value.value.id);
      }
      var created := db.CreateConversation(issueId, issueNumber, repo);
      r := if created.Ok? then Ok(created.value) else Err(StoreFailed(created.error));
    }

    /** An agent's comment on an issue through the shared GitHub client; a refused comment is the agent's failure. */
    method CreateIssueComment(issue: int, body: string) returns (r: Result<(), Failure>)
      modifies vcs
      ensures Effect(Snapshot(), r) == CommentEffect(Environment(), old(Snapshot()), issue, body)
    {
      var posted := vcs.CreateIssueComment(issue, body);
      r := if posted.Pass? then Ok(()) else Err(VcsFailed(posted.error));
    }
  }
}
