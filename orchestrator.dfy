/**
  The issue-lifecycle orchestrator. A new issue goes to the product owner;
  a comment on an issue that awaits clarification is a further round of
  analysis; the "ready-for-dev" label hands the refined requirements to
  the developer; an opened pull request moves the conversation into
  development; and the workflow status is read back from the store.

  Each handler is specified as one step of the agents' shared `World`
  (see `AgentBase`), and the orchestrator class performs it through the
  agent objects and is proved to match. Conversations are always looked
  up through the product owner's store client, as `handle_label_added`
  and the other handlers do.

  The store client writes the analysis as a JSON string, while
  `handle_label_added` reads it back as a mapping, so as written the
  label handler fails on every analysed issue (`LabelEffectAsWritten`).
  `LabelEffect` is the handler as intended: the stored analysis is the
  structured record the agents wrote; a conversation without any
  analysis makes that read fail, as `handle_label_added` does.
*/
module Orchestrator {
  import opened Wrappers
  import opened Text
  import opened Vcs
  import opened Store
  import opened IssueAnalysisModel
  import opened CodeGenerationModel
  import opened AgentBase
  import opened ProductOwner
  import opened Developer

  /** How many actions `get_workflow_status` asks for. */
  const ActionLimit := 50

  /** The error raised when `.get` is called on a missing analysis. */
  const NoAnalysisError := "'NoneType' object has no attribute 'get'"

  // ---------------------------------------------------------------
  // Status rules
  // ---------------------------------------------------------------

  /** The status a processed comment stores and returns: it looks at `is_complete` only. */
  function CommentStatus(a: IssueAnalysis): (status: string)
    ensures status == StatusReadyForDev <==> a.isComplete
    ensures status == StatusNeedsClarification <==> !a.isComplete
  {
    if a.isComplete then StatusReadyForDev else StatusNeedsClarification
  }

  /**
    The three rules that turn an analysis into a status (the product
    owner's first analysis, a processed comment, and the conversation
    record's own `update_analysis`) agree exactly when the two flags
    disagree; with both flags set, or neither, the first two rules differ.
  */
  lemma StatusRulesAgree(a: IssueAnalysis)
    ensures WorkflowStatus(a) == CommentStatus(a) <==> a.needsClarification != a.isComplete
    ensures a.needsClarification != a.isComplete ==> StateStatus(a) == CommentStatus(a)
    ensures StateStatus(a) == CommentStatus(a) <==> a.needsClarification || a.isComplete
  {
  }

  // ---------------------------------------------------------------
  // handle_issue_comment
  // ---------------------------------------------------------------

  /**
    `handle_issue_comment`: nothing unless the issue has a conversation
    awaiting clarification; otherwise the comment is analysed, the status
    and analysis are stored, and the product owner follows up.
  */
  function IssueCommentEffect(env: Env, p: Persona, decode: Decoder, w: World, issueNumber: int, commentBody: string,
                              repo: string): Effect<Option<StateView>>
  {
    match GetConversationAt(env.fault, w.store, issueNumber, repo)
    case Err(e) => Effect(w, Err(StoreFailed(e)))
    case Ok(None) => Effect(w, Ok(None))
    case Ok(Some(c)) =>
      if c.status != StatusNeedsClarification then Effect(w, Ok(None))
      else
        var processed := ProcessEffect(env, p, decode, w, c.id, [commentBody]);
        if processed.result.Err? then Effect(processed.world, Err(processed.result.error))
        else
          var a := processed.result.value;
          var updated := UpdateStateEffect(env, processed.world, c.id, CommentStatus(a), Some(a));
          if updated.result.Err? then Effect(updated.world, Err(updated.result.error))
          else
            var followed := FollowUpEffect(env, p, updated.world, issueNumber, a, "");
            if followed.result.Err? then Effect(followed.world, Err(followed.result.error))
            else Effect(followed.world, Ok(Some(StateView(c.issueId, issueNumber, repo, CommentStatus(a), Some(a)))))
  }

  /** Whether a comment on the issue is acted upon: its conversation exists and awaits clarification. */
  predicate AwaitsClarification(fault: Fault, s: StoreState, issueNumber: int, repo: string) {
    var found := GetConversationAt(fault, s, issueNumber, repo);
    found.Ok? && found.value.Some? && found.value.value.status == StatusNeedsClarification
  }

  /**
    The comment is ignored (no result, and no backend call, request or
    store write) exactly when the lookup succeeds but finds no conversation
    awaiting clarification; a failed lookup changes nothing either.
  */
  lemma CommentIgnored(env: Env, p: Persona, decode: Decoder, w: World, issueNumber: int, commentBody: string,
                       repo: string)
    ensures var r := IssueCommentEffect(env, p, decode, w, issueNumber, commentBody, repo);
      && (r.result == Ok(None) <==>
            GetConversationAt(env.fault, w.store, issueNumber, repo).Ok?
            && !AwaitsClarification(env.fault, w.store, issueNumber, repo))
      && (r.result == Ok(None) ==> r.world == w)
      && (GetConversationAt(env.fault, w.store, issueNumber, repo).Err? ==> r.world == w && r.result.Err?)
  {
  }

  /**
    After a processed comment the issue's conversation holds the new
    analysis and the status chosen by `is_complete` alone, and the returned
    state carries the same status, analysis and issue identifier.
  */
  lemma CommentStoresStatus(env: Env, p: Persona, decode: Decoder, w: World, issueNumber: int, commentBody: string,
                            repo: string)
    ensures var r := IssueCommentEffect(env, p, decode, w, issueNumber, commentBody, repo);
      r.result.Ok? && r.result.value.Some? ==>
        var v := r.result.value.value;
        && AwaitsClarification(env.fault, w.store, issueNumber, repo)
        && v.analysis.Some? && v.status == CommentStatus(v.analysis.value)
        && v.issueNumber == issueNumber && v.repoFullName == repo
        && var c := FindConversation(r.world.store.conversations, issueNumber, repo);
           c.Some? && c.value.status == v.status && c.value.analysis == v.analysis && c.value.issueId == v.issueId
  {
    var r := IssueCommentEffect(env, p, decode, w, issueNumber, commentBody, repo);
    if r.result.Ok? && r.result.value.Some? {
      var c := FindConversation(w.store.conversations, issueNumber, repo).value;
      var processed := ProcessEffect(env, p, decode, w, c.id, [commentBody]);
      ProcessFrame(env, p, decode, w, c.id, [commentBody]);
      var a := processed.result.value;
      StoredThenFollowedUp(env, p, processed.world, c.id, issueNumber, repo, CommentStatus(a), a, "");
    }
  }

  /**
    The follow-up to a processed comment: with clarification still needed
    the first request is the questions comment; otherwise, when complete,
    it is the ready comment with the refined description (or nothing); with
    neither flag the repository is not touched.
  */
  lemma CommentFollowUp(env: Env, p: Persona, decode: Decoder, w: World, issueNumber: int, commentBody: string,
                        repo: string)
    ensures var r := IssueCommentEffect(env, p, decode, w, issueNumber, commentBody, repo);
      r.result.Ok? && r.result.value.Some? ==>
        var a := r.result.value.value.analysis.value;
        && (a.needsClarification ==>
              |r.world.repo.sent| > |w.repo.sent|
              && r.world.repo.sent[|w.repo.sent|] == CommentOnIssue(issueNumber, FormatComment(p.agentName, QuestionsBody(a.questions), true)))
        && (!a.needsClarification && a.isComplete ==>
              |r.world.repo.sent| > |w.repo.sent|
              && r.world.repo.sent[|w.repo.sent|]
                 == CommentOnIssue(issueNumber, FormatComment(p.agentName, ReadyBody(TextOr(a.refinedDescription, ""), a.acceptanceCriteria), true)))
        && (!a.needsClarification && !a.isComplete ==> r.world.repo == w.repo)
  {
    var r := IssueCommentEffect(env, p, decode, w, issueNumber, commentBody, repo);
    if r.result.Ok? && r.result.value.Some? {
      var c := FindConversation(w.store.conversations, issueNumber, repo).value;
      var processed := ProcessEffect(env, p, decode, w, c.id, [commentBody]);
      ProcessFrame(env, p, decode, w, c.id, [commentBody]);
      var a := processed.result.value;
      var updated := UpdateStateEffect(env, processed.world, c.id, CommentStatus(a), Some(a));
      assert updated.world.repo == w.repo;
      if a.needsClarification {
        AskEffectRequests(env, p, updated.world, issueNumber, a.questions);
      } else if a.isComplete {
        MarkReadyRequests(env, p, updated.world, issueNumber, TextOr(a.refinedDescription, ""), a.acceptanceCriteria,
                          a.suggestedLabels);
      }
    }
  }

  /**
    With both flags set the conversation is stored as ready for
    development, yet the follow-up asks the questions again.
  */
  lemma {:induction false} CommentBothFlags(env: Env, p: Persona, decode: Decoder, w: World, issueNumber: int,
                                            commentBody: string, repo: string)
    ensures var r := IssueCommentEffect(env, p, decode, w, issueNumber, commentBody, repo);
      r.result.Ok? && r.result.value.Some? && r.result.value.value.analysis.Some?
      && r.result.value.value.analysis.value.needsClarification && r.result.value.value.analysis.value.isComplete ==>
        var a := r.result.value.value.analysis.value;
        var c := FindConversation(r.world.store.conversations, issueNumber, repo);
        && c.Some? && c.value.status == StatusReadyForDev
        && |r.world.repo.sent| > |w.repo.sent|
        && r.world.repo.sent[|w.repo.sent|] == CommentOnIssue(issueNumber, FormatComment(p.agentName, QuestionsBody(a.questions), true))
  {
    CommentStoresStatus(env, p, decode, w, issueNumber, commentBody, repo);
    CommentFollowUp(env, p, decode, w, issueNumber, commentBody, repo);
  }

  // ---------------------------------------------------------------
  // handle_label_added
  // ---------------------------------------------------------------

  /**
    `handle_label_added`: only the "ready-for-dev" label counts; the
    conversation is looked up in store `s` (through `fault`), and when its
    analysis has a refined description the developer runs once on world `w`.
  */
  function LabelEffect(fault: Fault, s: StoreState, env: Env, p: Persona, decode: GenerationDecoder, w: World,
                       issueNumber: int, labelName: string, repo: string): Effect<Option<CodeGenerationResult>>
  {
    if labelName != ReadyForDevLabel then Effect(w, Ok(None))
    else match GetConversationAt(fault, s, issueNumber, repo)
      case Err(e) => Effect(w, Err(StoreFailed(e)))
      case Ok(None) => Effect(w, Ok(None))
      case Ok(Some(c)) =>
        if c.analysis.None? then Effect(w, Err(AttributeFailed(NoAnalysisError)))
        else
          var a := c.analysis.value;
          if TextOr(a.refinedDescription, "") == "" then Effect(w, Ok(None))
          else
            var developed := HandleReadyEffect(env, p, decode, w, c.id, issueNumber, a.refinedDescription.value,
                                               a.acceptanceCriteria);
            if developed.result.Err? then Effect(developed.world, Err(developed.result.error))
            else Effect(developed.world, Ok(Some(developed.result.value)))
  }

  /** Whether the label starts development: the trigger label, a conversation, and a refined description. */
  predicate Triggers(fault: Fault, s: StoreState, issueNumber: int, labelName: string, repo: string) {
    var found := GetConversationAt(fault, s, issueNumber, repo);
    && labelName == ReadyForDevLabel
    && found.Ok? && found.value.Some?
    && found.value.value.analysis.Some?
    && TextOr(found.value.value.analysis.value.refinedDescription, "") != ""
  }

  /** Any label other than "ready-for-dev" is ignored before the store is read. */
  lemma LabelIgnoresOthers(fault: Fault, s: StoreState, env: Env, p: Persona, decode: GenerationDecoder, w: World,
                           issueNumber: int, labelName: string, repo: string)
    requires labelName != ReadyForDevLabel
    ensures LabelEffect(fault, s, env, p, decode, w, issueNumber, labelName, repo) == Effect(w, Ok(None))
  {
  }

  /**
    The developer runs exactly when the label triggers, and then once, on
    the stored refined description and acceptance criteria, its outcome
    being the handler's; otherwise nothing changes.
  */
  lemma LabelRunsDeveloperOnce(fault: Fault, s: StoreState, env: Env, p: Persona, decode: GenerationDecoder, w: World,
                               issueNumber: int, labelName: string, repo: string)
    ensures var r := LabelEffect(fault, s, env, p, decode, w, issueNumber, labelName, repo);
      if Triggers(fault, s, issueNumber, labelName, repo) then
        var c := GetConversationAt(fault, s, issueNumber, repo).value.value;
        var developed := HandleReadyEffect(env, p, decode, w, c.id, issueNumber, c.analysis.value.refinedDescription.value,
                                           c.analysis.value.acceptanceCriteria);
        && r.world == developed.world
        && (r.result.Ok? <==> developed.result.Ok?)
        && (r.result.Ok? ==> r.result == Ok(Some(developed.result.value)))
      else r.world == w && (r.result.Ok? ==> r.result.value.None?)
  {
  }

  /**
    A triggered label that ends with a pull request leaves, as the last
    request, the comment announcing it on the issue.
  */
  lemma LabelAnnouncesPullRequest(fault: Fault, s: StoreState, env: Env, p: Persona, decode: GenerationDecoder, w: World,
                                  issueNumber: int, labelName: string, repo: string)
    ensures var r := LabelEffect(fault, s, env, p, decode, w, issueNumber, labelName, repo);
      r.result.Ok? && r.result.value.Some? && r.result.value.value.status == StatusPrCreated ==>
        var result := r.result.value.value;
        && Triggers(fault, s, issueNumber, labelName, repo)
        && result.prUrl.Some?
        && |r.world.repo.sent| > 0
        && r.world.repo.sent[|r.world.repo.sent| - 1]
           == CommentOnIssue(issueNumber, FormatComment(p.agentName, PrCommentBody(result.prUrl.value, result.generation), true))
  {
    if Triggers(fault, s, issueNumber, labelName, repo) {
      var c := GetConversationAt(fault, s, issueNumber, repo).value.value;
      HandleReadyAnnounces(env, p, decode, w, c.id, issueNumber, c.analysis.value.refinedDescription.value,
                           c.analysis.value.acceptanceCriteria);
    }
  }

  /** What `.get` raises on the text the store client gives back for a stored analysis. */
  const StoredTextError := "'str' object has no attribute 'get'"

  /**
    `handle_label_added` as written. `update_conversation_analysis` stores
    `json.dumps(analysis)`, so a stored analysis `Some(a)` comes back as
    the text of `a`, and `analysis.get("refined_description", "")` raises
    on it; a conversation without an analysis raises on `None` as before.
  */
  function LabelEffectAsWritten(fault: Fault, s: StoreState, w: World, issueNumber: int, labelName: string, repo: string)
    : Effect<Option<CodeGenerationResult>>
  {
    if labelName != ReadyForDevLabel then Effect(w, Ok(None))
    else match GetConversationAt(fault, s, issueNumber, repo)
      case Err(e) => Effect(w, Err(StoreFailed(e)))
      case Ok(None) => Effect(w, Ok(None))
      case Ok(Some(c)) =>
        if c.analysis.None? then Effect(w, Err(AttributeFailed(NoAnalysisError)))
        else Effect(w, Err(AttributeFailed(StoredTextError)))
  }

  /**
    As written, the label handler never starts the developer: the world is
    left as it was, and a found conversation with an analysis fails on the
    stored text.
  */
  lemma LabelAsWrittenNeverDevelops(fault: Fault, s: StoreState, w: World, issueNumber: int, labelName: string, repo: string)
    ensures var r := LabelEffectAsWritten(fault, s, w, issueNumber, labelName, repo);
      && r.world == w
      && (r.result.Ok? ==> r.result.value.None?)
      && (labelName == ReadyForDevLabel && GetConversationAt(fault, s, issueNumber, repo).Ok?
          && GetConversationAt(fault, s, issueNumber, repo).value.Some?
          && GetConversationAt(fault, s, issueNumber, repo).value.value.analysis.Some? ==>
            r.result == Err(AttributeFailed(StoredTextError)))
  {
  }

  /**
    The input that shows it: once the product owner's workflow has analysed
    an issue, a "ready-for-dev" label on it fails as written, while the
    handler as intended starts the developer whenever the analysis has a
    refined description.
  */
  lemma AnalysedIssueLabelFails(env: Env, po: Persona, poDecode: Decoder, w: World, issueNumber: int, issueId: int,
                                title: string, body: string, repo: string, later: World)
    requires WorkflowEffect(env, po, poDecode, w, issueNumber, issueId, title, body, repo).result.Ok?
    requires env.fault(SelectRows(ConversationQuery(issueNumber, repo))).None?
    ensures var r := WorkflowEffect(env, po, poDecode, w, issueNumber, issueId, title, body, repo);
      && LabelEffectAsWritten(env.fault, r.world.store, later, issueNumber, ReadyForDevLabel, repo)
         == Effect(later, Err(AttributeFailed(StoredTextError)))
      && (TextOr(r.result.value.analysis.value.refinedDescription, "") != "" ==>
            Triggers(env.fault, r.world.store, issueNumber, ReadyForDevLabel, repo))
  {
    WorkflowStoresStatus(env, po, poDecode, w, issueNumber, issueId, title, body, repo);
  }

  // ---------------------------------------------------------------
  // handle_pr_opened
  // ---------------------------------------------------------------

  /** `handle_pr_opened`: a linked issue with a conversation moves to "in_development"; the analysis is kept. */
  function PrOpenedEffect(env: Env, w: World, issueNumber: Option<int>, repo: string): Effect<()> {
    if issueNumber.None? || issueNumber.value == 0 then Effect(w, Ok(()))
    else match GetConversationAt(env.fault, w.store, issueNumber.value, repo)
      case Err(e) => Effect(w, Err(StoreFailed(e)))
      case Ok(None) => Effect(w, Ok(()))
      case Ok(Some(c)) => UpdateStateEffect(env, w, c.id, StatusInDevelopment, None)
  }

  /**
    Only the conversations change, and only when the pull request names a
    (non-zero) issue that has a conversation; then that conversation, and
    nothing else about it, moves to "in_development".
  */
  lemma PrOpenedMovesToDevelopment(env: Env, w: World, issueNumber: Option<int>, repo: string)
    ensures var r := PrOpenedEffect(env, w, issueNumber, repo);
      && r.world.repo == w.repo && r.world.llmCalls == w.llmCalls
      && r.world.store.actions == w.store.actions && r.world.store.generations == w.store.generations
      && (issueNumber.None? || issueNumber.value == 0 ==> r == Effect(w, Ok(())))
      && (issueNumber.Some? && issueNumber.value != 0 ==>
            var found := GetConversationAt(env.fault, w.store, issueNumber.value, repo);
            && (found.Ok? && found.value.None? ==> r == Effect(w, Ok(())))
            && (r.result.Ok? && found.Ok? && found.value.Some? ==>
                  FindConversation(r.world.store.conversations, issueNumber.value, repo)
                  == Some(found.value.value.(status := StatusInDevelopment))))
  {
    if issueNumber.Some? && issueNumber.value != 0 {
      var found := GetConversationAt(env.fault, w.store, issueNumber.value, repo);
      if found.Ok? && found.value.Some? {
        var c := found.value.value;
        UpdateStateWrites(env.fault, w.store, c.id, StatusInDevelopment, None);
        FindAfterSetStatus(w.store.conversations, issueNumber.value, repo, c.id, StatusInDevelopment);
      }
    }
  }

  // ---------------------------------------------------------------
  // get_workflow_status
  // ---------------------------------------------------------------

  /** What `get_workflow_status` reports; the update time is not modelled. */
  datatype WorkflowReport =
    | NotStarted
    | Started(stage: string, issueNumber: int, createdAt: nat, actionCount: nat, hasCodeGeneration: bool,
              prNumber: Option<int>, analysis: Option<IssueAnalysis>)
  {
    predicate Present() {
      Started?
    }

    function Stage(): string {
      if NotStarted? then "not_started" else stage
    }
  }

  /** The integer in a column, or nothing for null. */
  function IntOf(v: Value): Option<int> {
    if v.VInt? then Some(v.i) else None
  }

  /** `get_workflow_status`: the conversation, its recent actions and its newest code-generation record. */
  function StatusReport(fault: Fault, s: StoreState, issueNumber: int, repo: string): Result<WorkflowReport, Failure> {
    match GetConversationAt(fault, s, issueNumber, repo)
    case Err(e) => Err(StoreFailed(e))
    case Ok(None) => Ok(NotStarted)
    case Ok(Some(c)) =>
      match SelectResult(fault, s, ActionsQuery(c.id, ActionLimit))
      case Err(e) => Err(StoreFailed(e))
      case Ok(actions) =>
        match SelectResult(fault, s, LatestGenerationQuery(c.id))
        case Err(e) => Err(StoreFailed(e))
        case Ok(records) =>
          Ok(Started(c.status, c.issueNumber, c.createdAt, |actions|, |records| > 0,
                     if |records| > 0 then IntOf(Lookup(records[0], "pr_number")) else None, c.analysis))
  }

  /**
    Without a conversation the report says "not started"; with one, it
    shows the conversation's status, issue, creation time and analysis, and
    counts at most fifty actions.
  */
  lemma ReportShowsConversation(fault: Fault, s: StoreState, issueNumber: int, repo: string)
    ensures var found := GetConversationAt(fault, s, issueNumber, repo);
      var r := StatusReport(fault, s, issueNumber, repo);
      && (found.Ok? && found.value.None? ==> r == Ok(NotStarted) && !r.value.Present() && r.value.Stage() == "not_started")
      && (r.Ok? && r.value.Present() ==>
            && found.Ok? && found.value.Some?
            && r.value.Stage() == found.value.value.status
            && r.value.issueNumber == found.value.value.issueNumber
            && r.value.createdAt == found.value.value.createdAt
            && r.value.analysis == found.value.value.analysis
            && r.value.actionCount <= ActionLimit)
  {
    var found := GetConversationAt(fault, s, issueNumber, repo);
    if found.Ok? && found.value.Some? {
      ExecuteLimit(TableRows(s, AgentActions), ActionsQuery(found.value.value.id, ActionLimit));
    }
  }

  /**
    The report has a code-generation record exactly when the conversation
    has one, and then its pull-request number is that of the conversation's
    newest record.
  */
  lemma ReportNewestGeneration(fault: Fault, s: StoreState, issueNumber: int, repo: string)
    ensures var r := StatusReport(fault, s, issueNumber, repo);
      r.Ok? && r.value.Present() ==>
        var id := GetConversationAt(fault, s, issueNumber, repo).value.value.id;
        && (r.value.hasCodeGeneration <==> HasRecordOf(s.generations, id))
        && (r.value.hasCodeGeneration ==>
              exists k :: IsNewestOf(s.generations, id, k) && r.value.prNumber == s.generations[k].prNumber)
  {
    var r := StatusReport(fault, s, issueNumber, repo);
    if r.Ok? && r.value.Present() {
      var id := GetConversationAt(fault, s, issueNumber, repo).value.value.id;
      var rows := Execute(TableRows(s, CodeGenerations), LatestGenerationQuery(id));
      assert r.value.hasCodeGeneration == (|rows| > 0);
      LatestGenerationRows(s, id);
      if |rows| > 0 {
        var k :| IsNewestOf(s.generations, id, k) && rows[0] == GenerationRow(s.generations[k]);
        GenerationRowColumns(s.generations[k], id);
      }
    }
  }

  predicate HasRecordOf(gs: seq<GenerationRecord>, id: nat) {
    exists k :: 0 <= k < |gs| && gs[k].conversationId == id
  }

  /** Record `k` belongs to the conversation and none of its records is newer. */
  predicate IsNewestOf(gs: seq<GenerationRecord>, id: nat, k: int) {
    && 0 <= k < |gs| && gs[k].conversationId == id
    && forall j :: 0 <= j < |gs| && gs[j].conversationId == id ==> gs[j].createdAt <= gs[k].createdAt
  }

  /** The newest-record query, written out: the conversation's records, newest first, one of them. */
  lemma LatestQueryShape(id: nat)
    ensures LatestGenerationQuery(id)
         == Query(CodeGenerations, [("conversation_id", VId(id))], Some(("created_at", true)), Some(1))
  {
    assert "-created_at"[1..] == "created_at";
  }

  lemma GenerationRowColumns(g: GenerationRecord, id: nat)
    ensures Matches(GenerationRow(g), [("conversation_id", VId(id))]) <==> g.conversationId == id
    ensures Lookup(GenerationRow(g), "created_at") == VInt(g.createdAt)
    ensures IntOf(Lookup(GenerationRow(g), "pr_number")) == g.prNumber
  {
    var filters := [("conversation_id", VId(id))];
    assert Lookup(GenerationRow(g), "conversation_id") == VId(g.conversationId);
    assert Matches(GenerationRow(g), filters) <==> Lookup(GenerationRow(g), filters[0].0) == filters[0].1;
  }

  /** The rows matching the conversation filter are exactly the rows of the conversation's records. */
  lemma MatchingRecords(s: StoreState, id: nat)
    ensures forall row :: row in Filter(TableRows(s, CodeGenerations), [("conversation_id", VId(id))]) <==>
      exists k :: 0 <= k < |s.generations| && s.generations[k].conversationId == id && row == GenerationRow(s.generations[k])
  {
    var table := TableRows(s, CodeGenerations);
    var filters := [("conversation_id", VId(id))];
    assert |table| == |s.generations|;
    assert forall k :: 0 <= k < |table| ==> table[k] == GenerationRow(s.generations[k]);
    forall k | 0 <= k < |s.generations|
      ensures Matches(table[k], filters) <==> s.generations[k].conversationId == id
    {
      GenerationRowColumns(s.generations[k], id);
    }
  }

  /** The newest-record query returns a row exactly when the conversation has a record, and then its newest one. */
  lemma LatestGenerationRows(s: StoreState, id: nat)
    ensures var rows := Execute(TableRows(s, CodeGenerations), LatestGenerationQuery(id));
      && (|rows| > 0 <==> HasRecordOf(s.generations, id))
      && (|rows| > 0 ==> exists k :: IsNewestOf(s.generations, id, k) && rows[0] == GenerationRow(s.generations[k]))
  {
    LatestQueryShape(id);
    MatchingRecords(s, id);
    var matching := Filter(TableRows(s, CodeGenerations), [("conversation_id", VId(id))]);
    var ordered := SortBy(matching, "created_at", true);
    assert |ordered| == |matching| by {
      assert |multiset(ordered)| == |multiset(matching)|;
    }
    if HasRecordOf(s.generations, id) {
      var k :| 0 <= k < |s.generations| && s.generations[k].conversationId == id;
      assert GenerationRow(s.generations[k]) in matching;
    }
    if |ordered| > 0 {
      assert forall row :: row in ordered <==> row in matching by {
        forall row ensures row in ordered <==> row in matching {
          assert row in ordered <==> row in multiset(ordered);
        }
      }
      NewestFirst(s, id, ordered);
    }
  }

  /** A list of the conversation's records sorted newest first starts with its newest record. */
  lemma NewestFirst(s: StoreState, id: nat, ordered: seq<Row>)
    requires |ordered| > 0 && SortedBy(ordered, "created_at", true)
    requires forall row :: row in ordered <==>
      exists k :: 0 <= k < |s.generations| && s.generations[k].conversationId == id && row == GenerationRow(s.generations[k])
    ensures exists k :: IsNewestOf(s.generations, id, k) && ordered[0] == GenerationRow(s.generations[k])
  {
    assert forall m :: 0 <= m < |ordered| ==> Lookup(ordered[m], "created_at").VInt? by {
      forall m | 0 <= m < |ordered| ensures Lookup(ordered[m], "created_at").VInt? {
        assert ordered[m] in ordered;
        var k :| 0 <= k < |s.generations| && s.generations[k].conversationId == id && ordered[m] == GenerationRow(s.generations[k]);
        GenerationRowColumns(s.generations[k], id);
      }
    }
    assert ordered[0] in ordered;
    var k :| 0 <= k < |s.generations| && s.generations[k].conversationId == id && ordered[0] == GenerationRow(s.generations[k]);
    GenerationRowColumns(s.generations[k], id);
    forall j | 0 <= j < |s.generations| && s.generations[j].conversationId == id
      ensures s.generations[j].createdAt <= s.generations[k].createdAt
    {
      assert GenerationRow(s.generations[j]) in ordered;
      var m :| 0 <= m < |ordered| && ordered[m] == GenerationRow(s.generations[j]);
      SortedDescBelowFirst(ordered, "created_at", m);
      GenerationRowColumns(s.generations[j], id);
    }
    assert IsNewestOf(s.generations, id, k);
  }

  /** In a list sorted newest first on an integer column, no row is above the first. */
  lemma {:induction false} SortedDescBelowFirst(rows: seq<Row>, column: string, j: nat)
    requires SortedBy(rows, column, true) && j < |rows|
    requires forall m :: 0 <= m < |rows| ==> Lookup(rows[m], column).VInt?
    ensures Lookup(rows[j], column).i <= Lookup(rows[0], column).i
    decreases j
  {
    if j > 0 {
      SortedDescBelowFirst(rows, column, j - 1);
      assert InOrder(rows[j - 1], rows[j], column, true);
    }
  }

  // ---------------------------------------------------------------
  // The orchestrator
  // ---------------------------------------------------------------

  /** `IssueWorkflowOrchestrator`: the two agents and the handlers that sequence them. */
  class IssueWorkflowOrchestrator {
    const po: ProductOwnerAgent
    const dev: DeveloperAgent

    constructor (po: ProductOwnerAgent, dev: DeveloperAgent)
      ensures this.po == po && this.dev == dev
    {
      this.po := po;
      this.dev := dev;
    }

    /** `handle_new_issue`: the product owner's workflow. */
    method HandleNewIssue(issueNumber: int, issueId: int, title: string, body: string, repo: string)
      returns (r: Result<ConversationState, Failure>)
      modifies po.base.llm, po.base.vcs, po.base.db
      ensures var spec := WorkflowEffect(po.base.Environment(), po.base.persona, po.decode, old(po.base.Snapshot()),
                                         issueNumber, issueId, title, body, repo);
        && po.base.Snapshot() == spec.world
        && r.Ok? == spec.result.Ok?
        && (r.Ok? ==> ViewOf(r.value) == spec.result.value)
        && (r.Err? ==> r.error == spec.result.error)
    {
      r := po.HandleIssueWorkflow(issueNumber, issueId, title, body, repo);
    }

    method HandleIssueComment(issueNumber: int, commentBody: string, repo: string)
      returns (r: Result<Option<ConversationState>, Failure>)
      modifies po.base.llm, po.base.vcs, po.base.db
      ensures var spec := IssueCommentEffect(po.base.Environment(), po.base.persona, po.decode, old(po.base.Snapshot()),
                                             issueNumber, commentBody, repo);
        && po.base.Snapshot() == spec.world
        && r.Ok? == spec.result.Ok?
        && (r.Ok? ==> r.value.Some? == spec.result.value.Some?)
        && (r.Ok? && r.value.Some? ==> ViewOf(r.value.value) == spec.result.value.value)
        && (r.Err? ==> r.error == spec.result.error)
    {
      var found := po.base.db.GetConversation(issueNumber, repo);
      if found.Err? {
        return Err(StoreFailed(found.error));
      }
      if found.value.None? {
        return Ok(None);
      }
      var c := found.value.value;
      if c.status != StatusNeedsClarification {
        return Ok(None);
      }
      var analysis := po.ProcessUserResponse(c.id, [commentBody]);
      if analysis.Err? {
        return Err(analysis.error);
      }
      var a := analysis.value;
      var updated := po.base.UpdateConversationState(c.id, CommentStatus(a), Some(a));
      if updated.Err? {
        return Err(updated.error);
      }
      var followed: Result<(), Failure> := Ok(());
      if a.needsClarification {
        followed := po.AskClarifyingQuestions(issueNumber, a.questions);
      } else if a.isComplete {
        followed := po.MarkReadyForDevelopment(issueNumber, TextOr(a.refinedDescription, ""), a.acceptanceCriteria,
                                               a.suggestedLabels);
      }
      if followed.Err? {
        return Err(followed.error);
      }
      var state := new ConversationState.WithStatus(c.issueId, issueNumber, repo, CommentStatus(a), Some(a));
      r := Ok(Some(state));
    }

    /** The lookup goes through the product owner's store client; the developer works on its own collaborators. */
    method HandleLabelAdded(issueNumber: int, labelName: string, repo: string)
      returns (r: Result<Option<CodeGenerationResult>, Failure>)
      modifies dev.base.llm, dev.base.vcs, dev.base.db
      ensures Effect(dev.base.Snapshot(), r)
           == LabelEffect(po.base.db.fault, old(po.base.db.Snapshot()), dev.base.Environment(), dev.base.persona,
                          dev.decode, old(dev.base.Snapshot()), issueNumber, labelName, repo)
    {
      if labelName != ReadyForDevLabel {
        return Ok(None);
      }
      var found := po.base.db.GetConversation(issueNumber, repo);
      if found.Err? {
        return Err(StoreFailed(found.error));
      }
      if found.value.None? {
        return Ok(None);
      }
      var c := found.value.value;
      if c.analysis.None? {
        return Err(AttributeFailed(NoAnalysisError));
      }
      var requirements := TextOr(c.analysis.value.refinedDescription, "");
      if requirements == "" {
        return Ok(None);
      }
      var result := dev.HandleReadyForDevIssue(c.id, issueNumber, requirements, c.analysis.value.acceptanceCriteria);
      if result.Err? {
        return Err(result.error);
      }
      r := Ok(Some(result.value));
    }

    /** `handle_pr_opened`; the pull request's own number is only logged. */
    method HandlePrOpened(prNumber: int, issueNumber: Option<int>, repo: string) returns (r: Result<(), Failure>)
      modifies po.base.db
      ensures Effect(po.base.Snapshot(), r) == PrOpenedEffect(po.base.Environment(), old(po.base.Snapshot()), issueNumber, repo)
    {
      r := Ok(());
      if issueNumber.Some? && issueNumber.value != 0 {
        var found := po.base.db.GetConversation(issueNumber.value, repo);
        if found.Err? {
          return Err(StoreFailed(found.error));
        }
        if found.value.Some? {
          r := po.base.UpdateConversationState(found.value.value.id, StatusInDevelopment, None);
        }
      }
    }

    /** `get_workflow_status`: reads only. */
    method GetWorkflowStatus(issueNumber: int, repo: string) returns (r: Result<WorkflowReport, Failure>)
      ensures r == StatusReport(po.base.db.fault, po.base.db.Snapshot(), issueNumber, repo)
    {
      var found := po.base.db.GetConversation(issueNumber, repo);
      if found.Err? {
        return Err(StoreFailed(found.error));
      }
      if found.value.None? {
        return Ok(NotStarted);
      }
      var c := found.value.value;
      var actions := po.base.db.GetAgentActions(c.id, ActionLimit);
      if actions.Err? {
        return Err(StoreFailed(actions.error));
      }
      var records := po.base.db.Select(CodeGenerations, [("conversation_id", VId(c.id))], Some(1), Some("-created_at"));
      if records.Err? {
        return Err(StoreFailed(records.error));
      }
      var prNumber := if |records.value| > 0 then IntOf(Lookup(records.value[0], "pr_number")) else None;
      r := Ok(Started(c.status, c.issueNumber, c.createdAt, |actions.value|, |records.value| > 0, prNumber, c.analysis));
    }
  }

  /** `create_workflow_orchestrator`. */
  method CreateWorkflowOrchestrator(po: ProductOwnerAgent, dev: DeveloperAgent) returns (o: IssueWorkflowOrchestrator)
    ensures fresh(o) && o.po == po && o.dev == dev
  {
    o := new IssueWorkflowOrchestrator(po, dev);
  }
}
