/**
  The product owner agent: analyses an issue, asks clarifying questions,
  marks an issue ready for development and processes the user's answers.

  A prompt is modelled by the part that carries data (the issue, the
  numbered answers); the fixed instruction wording and the parser's format
  instructions are not reproduced. Parsing the backend's answer is a
  `Decoder` (the JSON decoding, an oracle) followed by the model
  validation of `IssueAnalysisModel`.
*/
module ProductOwner {
  import opened Wrappers
  import opened Text
  import opened Vcs
  import opened Store
  import opened IssueAnalysisModel
  import opened AgentBase

  const NeedsClarificationLabel := "needs-clarification"
  const ReadyForDevLabel := "ready-for-dev"
  const MaxRetries := 3

  type Decoder = string -> Option<RawIssueAnalysis>

  /** The output parser: decode, then validate; either step can fail. */
  function ParseAnalysis(decode: Decoder, text: string): (r: Result<IssueAnalysis, Failure>)
    ensures r.Ok? <==> decode(text).Some? && ValidateIssueAnalysis(decode(text).value).Ok?
    ensures r.Ok? ==> r.value == ValidateIssueAnalysis(decode(text).value).value
  {
    match decode(text)
    case None => Err(ParseFailed("Invalid json output"))
    case Some(raw) =>
      match ValidateIssueAnalysis(raw)
      case Err(missing) => Err(ParseFailed("Failed to parse IssueAnalysis: missing " + Join(missing, ", ")))
      case Ok(a) => Ok(a)
  }

  // ---------------------------------------------------------------
  // analyze_issue
  // ---------------------------------------------------------------

  function LabelsText(labels: seq<string>): string {
    if |labels| > 0 then Join(labels, ", ") else "None"
  }

  /** The issue section of the analysis prompt. */
  function AnalysisPrompt(title: string, body: string, labels: seq<string>): string {
    "## Issue Information\n**Title:** " + title + "\n\n**Description:**\n" + body
    + "\n\n**Existing Labels:** " + LabelsText(labels) + "\n"
  }

  /**
    The analysis prompt names the issue's title and description and every
    existing label, and says "None" when there is no label.
  */
  lemma AnalysisPromptNamesIssue(title: string, body: string, labels: seq<string>)
    ensures var prompt := AnalysisPrompt(title, body, labels);
      && Contains(prompt, title) && Contains(prompt, body)
      && (forall k :: 0 <= k < |labels| ==> Contains(prompt, labels[k]))
      && (labels == [] ==> Contains(prompt, "**Existing Labels:** None\n"))
  {
    PromptNamesTitleAndBody(title, body, labels);
    PromptNamesLabels(title, body, labels);
  }

  lemma PromptNamesTitleAndBody(title: string, body: string, labels: seq<string>)
    ensures Contains(AnalysisPrompt(title, body, labels), title)
    ensures Contains(AnalysisPrompt(title, body, labels), body)
  {
    var head := "## Issue Information\n**Title:** ";
    var mid := "\n\n**Description:**\n";
    var tail := "\n\n**Existing Labels:** " + LabelsText(labels) + "\n";
    assert AnalysisPrompt(title, body, labels) == head + title + (mid + body + tail);
    ContainsMiddle(head, title, mid + body + tail);
    assert AnalysisPrompt(title, body, labels) == (head + title + mid) + body + tail;
    ContainsMiddle(head + title + mid, body, tail);
  }

  lemma PromptNamesLabels(title: string, body: string, labels: seq<string>)
    ensures forall k :: 0 <= k < |labels| ==> Contains(AnalysisPrompt(title, body, labels), labels[k])
    ensures labels == [] ==> Contains(AnalysisPrompt(title, body, labels), "**Existing Labels:** None\n")
  {
    var before := "## Issue Information\n**Title:** " + title + "\n\n**Description:**\n" + body + "\n\n";
    var line := "**Existing Labels:** " + LabelsText(labels) + "\n";
    assert AnalysisPrompt(title, body, labels) == before + line;
    LabelLineNamesLabels(labels);
    forall k | 0 <= k < |labels| ensures Contains(before + line, labels[k]) {
      ContainsInRight(before, line, labels[k]);
    }
    if labels == [] {
      ContainsInRight(before, line, line);
    }
  }

  lemma LabelLineNamesLabels(labels: seq<string>)
    ensures var line := "**Existing Labels:** " + LabelsText(labels) + "\n";
      && (forall k :: 0 <= k < |labels| ==> Contains(line, labels[k]))
      && Contains(line, line)
      && (labels == [] ==> line == "**Existing Labels:** None\n")
  {
    var pre := "**Existing Labels:** ";
    var line := pre + LabelsText(labels) + "\n";
    ContainsAt(line, line, 0);
    if labels != [] {
      JoinContainsParts(labels, ", ");
      forall k | 0 <= k < |labels| ensures Contains(line, labels[k]) {
        ContainsInRight(pre, LabelsText(labels), labels[k]);
        ContainsInLeft(pre + LabelsText(labels), "\n", labels[k]);
      }
    }
  }

  function AnalysisPayload(issueNumber: int, a: IssueAnalysis): map<string, Value> {
    map["issue_number" := VInt(issueNumber), "needs_clarification" := VBool(a.needsClarification),
        "question_count" := VInt(|a.questions|), "estimated_complexity" := VStr(a.estimatedComplexity)]
  }

  /** `analyze_issue`: ask the backend, parse its answer, log the analysis. */
  function AnalyzeEffect(env: Env, p: Persona, decode: Decoder, w: World, issueNumber: int, title: string,
                         body: string, labels: seq<string>, context: seq<(string, string)>): Effect<IssueAnalysis>
  {
    var called := InvokeEffect(env, w, Messages(p, AnalysisPrompt(title, body, labels), [], context), MaxRetries);
    if called.result.Err? then Effect(called.world, Err(called.result.error))
    else match ParseAnalysis(decode, called.result.value)
      case Err(f) => Effect(called.world, Err(f))
      case Ok(a) =>
        var logged := LogEffect(env, p, called.world, None, "issue_analyzed", AnalysisPayload(issueNumber, a));
        if logged.result.Err? then Effect(logged.world, Err(logged.result.error)) else Effect(logged.world, Ok(a))
  }

  /**
    The analysis returned is the parsed answer of the backend, logged once
    as "issue_analyzed" with its question count; an answer that does not
    parse escapes and leaves the store as it was.
  */
  lemma AnalyzeLogsOnce(env: Env, p: Persona, decode: Decoder, w: World, issueNumber: int, title: string,
                        body: string, labels: seq<string>, context: seq<(string, string)>)
    ensures var called := InvokeEffect(env, w, Messages(p, AnalysisPrompt(title, body, labels), [], context), MaxRetries);
      var r := AnalyzeEffect(env, p, decode, w, issueNumber, title, body, labels, context);
      && (r.result.Ok? ==>
            && called.result.Ok?
            && ParseAnalysis(decode, called.result.value) == Ok(r.result.value)
            && r.world.store.actions
               == w.store.actions + [NewAction(w.store, None, p.agentName, "issue_analyzed", AnalysisPayload(issueNumber, r.result.value))]
            && AnalysisPayload(issueNumber, r.result.value)["question_count"] == VInt(|r.result.value.questions|))
      && (called.result.Ok? && ParseAnalysis(decode, called.result.value).Err? ==>
            r.result.Err? && r.world.store == w.store)
  {
  }

  /** Analysing touches neither the repository nor the conversations. */
  lemma AnalyzeFrame(env: Env, p: Persona, decode: Decoder, w: World, issueNumber: int, title: string,
                     body: string, labels: seq<string>, context: seq<(string, string)>)
    ensures var r := AnalyzeEffect(env, p, decode, w, issueNumber, title, body, labels, context);
      r.world.repo == w.repo && r.world.store.conversations == w.store.conversations
  {
  }

  // ---------------------------------------------------------------
  // ask_clarifying_questions
  // ---------------------------------------------------------------

  const QuestionsHeader := "## \U{1F914} Clarification Needed\n\nTo better understand this requirement, I have some questions:\n\n"
  const QuestionsFooter := "\nPlease provide answers so I can refine the requirements for development."

  function QuestionsBody(questions: seq<string>): string {
    QuestionsHeader + NumberedLines(questions, 1) + QuestionsFooter
  }

  function QuestionValues(questions: seq<string>): (r: seq<Value>)
    ensures |r| == |questions|
  {
    seq(|questions|, k requires 0 <= k < |questions| => VStr(questions[k]))
  }

  /** `ask_clarifying_questions`: one comment, the clarification label, one log. */
  function AskEffect(env: Env, p: Persona, w: World, issue: int, questions: seq<string>): Effect<()> {
    var commented := CommentEffect(env, w, issue, FormatComment(p.agentName, QuestionsBody(questions), true));
    if commented.result.Err? then commented
    else
      var labelled := OnRepo(commented.world, AddLabelsStep(env.vcs, commented.world.repo, issue, [NeedsClarificationLabel]));
      if labelled.result.Err? then labelled
      else
        var logged := LogEffect(env, p, labelled.world, None, "questions_asked",
                                map["issue_number" := VInt(issue), "questions" := VList(QuestionValues(questions))]);
        Effect(logged.world, if logged.result.Ok? then Ok(()) else Err(logged.result.error))
  }

  /**
    On success exactly two requests went to the repository: the signed
    comment listing the questions, then the single label
    "needs-clarification", which the issue now carries.
  */
  lemma AskEffectRequests(env: Env, p: Persona, w: World, issue: int, questions: seq<string>)
    ensures var r := AskEffect(env, p, w, issue, questions);
      r.result.Ok? ==>
        && r.world.repo.sent == w.repo.sent + [CommentOnIssue(issue, FormatComment(p.agentName, QuestionsBody(questions), true)),
                                               AddLabels(issue, [NeedsClarificationLabel])]
        && NeedsClarificationLabel in LabelsOf(r.world.repo, issue)
  {
  }

  /** Asking questions changes no conversation and makes no backend call. */
  lemma AskFrame(env: Env, p: Persona, w: World, issue: int, questions: seq<string>)
    ensures var r := AskEffect(env, p, w, issue, questions);
      r.world.store.conversations == w.store.conversations && r.world.llmCalls == w.llmCalls
  {
  }

  /** The comment lists the questions in their order, numbered from 1, and is signed. */
  lemma QuestionsCommentLists(agentName: string, questions: seq<string>)
    ensures var comment := FormatComment(agentName, QuestionsBody(questions), true);
      && StartsWith(comment, QuestionsHeader + Concat(seq(|questions|, k requires 0 <= k < |questions| => NumberedLine(questions[k], 1 + k))))
      && EndsWith(comment, QuestionsFooter + Signature(agentName))
  {
    NumberedLinesConcat(questions, 1);
    var prefix := QuestionsHeader + NumberedLines(questions, 1);
    var comment := FormatComment(agentName, QuestionsBody(questions), true);
    assert comment == prefix + (QuestionsFooter + Signature(agentName));
    assert comment[..|prefix|] == prefix;
    assert comment[|comment| - |QuestionsFooter + Signature(agentName)|..] == QuestionsFooter + Signature(agentName);
  }

  // ---------------------------------------------------------------
  // mark_ready_for_development
  // ---------------------------------------------------------------

  const ReadyHeader := "## \U{2705} Requirements Refined\n\n**Refined Description:**\n"
  const CriteriaHeading := "**Acceptance Criteria:**\n"
  const ReadyFooter := "This issue is now ready for development!"

  function CriteriaBlock(criteria: seq<string>): string {
    if |criteria| > 0 then CriteriaHeading + NumberedLines(criteria, 1) + "\n" else ""
  }

  function ReadyBody(refined: string, criteria: seq<string>): string {
    ReadyHeader + refined + "\n\n" + CriteriaBlock(criteria) + ReadyFooter
  }

  /** The comment opens with the refined description; without criteria no criteria block follows. */
  lemma ReadyBodyShape(refined: string, criteria: seq<string>)
    ensures StartsWith(ReadyBody(refined, criteria), ReadyHeader + refined + "\n\n")
    ensures |criteria| == 0 ==> ReadyBody(refined, criteria) == ReadyHeader + refined + "\n\n" + ReadyFooter
  {
    var head := ReadyHeader + refined + "\n\n";
    var tail := CriteriaBlock(criteria) + ReadyFooter;
    assert ReadyBody(refined, criteria) == head + tail;
    StartsWithAppend(head, tail);
  }

  /** With criteria, the comment holds the criteria heading followed by the criteria numbered from 1. */
  lemma ReadyBodyCriteria(refined: string, criteria: seq<string>)
    requires |criteria| > 0
    ensures Contains(ReadyBody(refined, criteria), CriteriaHeading + NumberedLines(criteria, 1))
  {
    var head := ReadyHeader + refined + "\n\n";
    var block := CriteriaHeading + NumberedLines(criteria, 1);
    assert ReadyBody(refined, criteria) == head + (block + "\n") + ReadyFooter;
    AppendRegroup(head, block, "\n", ReadyFooter);
    ContainsMiddle(head, block, "\n" + ReadyFooter);
  }

  function ReadyPayload(issue: int, refined: string, criteria: seq<string>): map<string, Value> {
    map["issue_number" := VInt(issue), "refined_description" := VStr(refined),
        "acceptance_criteria_count" := VInt(|criteria|)]
  }

  /** `mark_ready_for_development`: comment, drop the clarification label, add the labels, log. */
  function MarkReadyEffect(env: Env, p: Persona, w: World, issue: int, refined: string, criteria: seq<string>,
                           suggested: seq<string>): Effect<()>
  {
    var commented := CommentEffect(env, w, issue, FormatComment(p.agentName, ReadyBody(refined, criteria), true));
    if commented.result.Err? then commented
    else
      var removed := OnRepo(commented.world, RemoveLabelsStep(env.vcs, commented.world.repo, issue, [NeedsClarificationLabel]));
      if removed.result.Err? then removed
      else
        var labelled := OnRepo(removed.world, AddLabelsStep(env.vcs, removed.world.repo, issue, suggested + [ReadyForDevLabel]));
        if labelled.result.Err? then labelled
        else
          var logged := LogEffect(env, p, labelled.world, None, "marked_ready_for_dev", ReadyPayload(issue, refined, criteria));
          Effect(logged.world, if logged.result.Ok? then Ok(()) else Err(logged.result.error))
  }

  /**
    On success the repository received, in order: the comment, the removal
    of "needs-clarification", and one request adding the suggested labels
    followed by "ready-for-dev" (appended even when already suggested);
    the issue then carries "ready-for-dev".
  */
  lemma MarkReadyRequests(env: Env, p: Persona, w: World, issue: int, refined: string, criteria: seq<string>,
                          suggested: seq<string>)
    ensures var r := MarkReadyEffect(env, p, w, issue, refined, criteria, suggested);
      r.result.Ok? ==>
        && r.world.repo.sent
           == w.repo.sent + [CommentOnIssue(issue, FormatComment(p.agentName, ReadyBody(refined, criteria), true))]
              + RemoveRequests(issue, [NeedsClarificationLabel]) + [AddLabels(issue, suggested + [ReadyForDevLabel])]
        && ReadyForDevLabel in LabelsOf(r.world.repo, issue)
  {
    var commented := CommentEffect(env, w, issue, FormatComment(p.agentName, ReadyBody(refined, criteria), true));
    if commented.result.Ok? {
      RemoveLabelsTolerant(env.vcs, commented.world.repo, issue, [NeedsClarificationLabel]);
    }
  }

  /** Marking ready changes no conversation and makes no backend call. */
  lemma MarkReadyFrame(env: Env, p: Persona, w: World, issue: int, refined: string, criteria: seq<string>,
                       suggested: seq<string>)
    ensures var r := MarkReadyEffect(env, p, w, issue, refined, criteria, suggested);
      r.world.store.conversations == w.store.conversations && r.world.llmCalls == w.llmCalls
  {
  }

  // ---------------------------------------------------------------
  // process_user_response
  // ---------------------------------------------------------------

  /** The answers section of the follow-up prompt: "1. first", "2. second", ... one per line. */
  function ResponsePrompt(responses: seq<string>): string {
    "## User Responses:\n" + Join(NumberedItems(responses, 1), "\n") + "\n"
  }

  function ResponsePayload(conversationId: nat, a: IssueAnalysis): map<string, Value> {
    map["conversation_id" := VId(conversationId), "still_needs_clarification" := VBool(a.needsClarification),
        "is_complete" := VBool(a.isComplete)]
  }

  /** `process_user_response`: a fresh analysis from the numbered answers, logged against the conversation. */
  function ProcessEffect(env: Env, p: Persona, decode: Decoder, w: World, conversationId: nat,
                         responses: seq<string>): Effect<IssueAnalysis>
  {
    var called := InvokeEffect(env, w, Messages(p, ResponsePrompt(responses), [], []), MaxRetries);
    if called.result.Err? then Effect(called.world, Err(called.result.error))
    else match ParseAnalysis(decode, called.result.value)
      case Err(f) => Effect(called.world, Err(f))
      case Ok(a) =>
        var logged := LogEffect(env, p, called.world, Some(conversationId), "user_response_processed",
                                ResponsePayload(conversationId, a));
        if logged.result.Err? then Effect(logged.world, Err(logged.result.error)) else Effect(logged.world, Ok(a))
  }

  /** The follow-up is logged once, under the conversation, and its payload names the conversation. */
  lemma ProcessLogsConversation(env: Env, p: Persona, decode: Decoder, w: World, conversationId: nat,
                                responses: seq<string>)
    ensures var r := ProcessEffect(env, p, decode, w, conversationId, responses);
      r.result.Ok? ==>
        && r.world.store.actions
           == w.store.actions + [NewAction(w.store, Some(conversationId), p.agentName, "user_response_processed",
                                           ResponsePayload(conversationId, r.result.value))]
        && ResponsePayload(conversationId, r.result.value)["conversation_id"] == VId(conversationId)
  {
  }

  /** The answers are numbered from 1 in their order. */
  lemma ResponsePromptNumbers(responses: seq<string>)
    ensures forall k :: 0 <= k < |responses| ==>
      NumberedItems(responses, 1)[k] == NatToString(k + 1) + ". " + responses[k]
  {
  }

  lemma ProcessFrame(env: Env, p: Persona, decode: Decoder, w: World, conversationId: nat, responses: seq<string>)
    ensures var r := ProcessEffect(env, p, decode, w, conversationId, responses);
      r.world.repo == w.repo && r.world.store.conversations == w.store.conversations
  {
  }

  // ---------------------------------------------------------------
  // handle_issue_workflow
  // ---------------------------------------------------------------

  /** The status `handle_issue_workflow` stores: it looks at `needs_clarification` only. */
  function WorkflowStatus(a: IssueAnalysis): (status: string)
    ensures status == StatusNeedsClarification <==> a.needsClarification
    ensures status == StatusReadyForDev <==> !a.needsClarification
  {
    if a.needsClarification then StatusNeedsClarification else StatusReadyForDev
  }

  /** Ask when clarification is needed, else mark ready when complete, else do nothing. */
  function FollowUpEffect(env: Env, p: Persona, w: World, issue: int, a: IssueAnalysis, fallback: string): Effect<()> {
    if a.needsClarification then AskEffect(env, p, w, issue, a.questions)
    else if a.isComplete then
      MarkReadyEffect(env, p, w, issue, TextOr(a.refinedDescription, fallback), a.acceptanceCriteria, a.suggestedLabels)
    else Effect(w, Ok(()))
  }

  lemma FollowUpFrame(env: Env, p: Persona, w: World, issue: int, a: IssueAnalysis, fallback: string)
    ensures var r := FollowUpEffect(env, p, w, issue, a, fallback);
      r.world.store.conversations == w.store.conversations && r.world.llmCalls == w.llmCalls
  {
    AskFrame(env, p, w, issue, a.questions);
    MarkReadyFrame(env, p, w, issue, TextOr(a.refinedDescription, fallback), a.acceptanceCriteria, a.suggestedLabels);
  }

  /**
    Storing a status and an analysis and then following up leaves the
    issue's conversation carrying both: the follow-up writes no conversation.
  */
  lemma StoredThenFollowedUp(env: Env, p: Persona, w: World, id: nat, issueNumber: int, repo: string, status: string,
                             a: IssueAnalysis, fallback: string)
    requires FindConversation(w.store.conversations, issueNumber, repo).Some?
    requires FindConversation(w.store.conversations, issueNumber, repo).value.id == id
    ensures var updated := UpdateStateEffect(env, w, id, status, Some(a));
      updated.result.Ok? ==>
        FindConversation(FollowUpEffect(env, p, updated.world, issueNumber, a, fallback).world.store.conversations,
                         issueNumber, repo)
        == Some(FindConversation(w.store.conversations, issueNumber, repo).value.(status := status, analysis := Some(a)))
  {
    var updated := UpdateStateEffect(env, w, id, status, Some(a));
    if updated.result.Ok? {
      var first := UpdateStatusStep(env.fault, w.store, id, status);
      FindAfterSetStatus(w.store.conversations, issueNumber, repo, id, status);
      FindAfterSetAnalysis(first.state.conversations, issueNumber, repo, id, a);
      FollowUpFrame(env, p, updated.world, issueNumber, a, fallback);
    }
  }

  /** `handle_issue_workflow`: conversation, analysis, stored status, then the follow-up. */
  function WorkflowEffect(env: Env, p: Persona, decode: Decoder, w: World, issueNumber: int, issueId: int,
                          title: string, body: string, repo: string): Effect<StateView>
  {
    var got := OnStore(w, GetOrCreateStep(env.fault, w.store, issueNumber, issueId, repo));
    if got.result.Err? then Effect(got.world, Err(got.result.error))
    else
      var analysed := AnalyzeEffect(env, p, decode, got.world, issueNumber, title, body, [], []);
      if analysed.result.Err? then Effect(analysed.world, Err(analysed.result.error))
      else
        var a := analysed.result.value;
        var updated := UpdateStateEffect(env, analysed.world, got.result.value, WorkflowStatus(a), Some(a));
        if updated.result.Err? then Effect(updated.world, Err(updated.result.error))
        else
          var followed := FollowUpEffect(env, p, updated.world, issueNumber, a, body);
          if followed.result.Err? then Effect(followed.world, Err(followed.result.error))
          else Effect(followed.world, Ok(StateView(issueId, issueNumber, repo, WorkflowStatus(a), Some(a))))
  }

  /**
    After the workflow the issue's conversation holds the analysis and the
    status chosen by `needs_clarification` alone (ready for development even
    when the analysis is not complete), and the returned state agrees.
  */
  lemma WorkflowStoresStatus(env: Env, p: Persona, decode: Decoder, w: World, issueNumber: int, issueId: int,
                             title: string, body: string, repo: string)
    ensures var r := WorkflowEffect(env, p, decode, w, issueNumber, issueId, title, body, repo);
      r.result.Ok? ==>
        && r.result.value.status == WorkflowStatus(r.result.value.analysis.value)
        && var c := FindConversation(r.world.store.conversations, issueNumber, repo);
           c.Some? && c.value.status == r.result.value.status && c.value.analysis == r.result.value.analysis
  {
    var r := WorkflowEffect(env, p, decode, w, issueNumber, issueId, title, body, repo);
    if r.result.Ok? {
      var got := OnStore(w, GetOrCreateStep(env.fault, w.store, issueNumber, issueId, repo));
      GetOrCreateFinds(env.fault, w.store, issueNumber, issueId, repo);
      var analysed := AnalyzeEffect(env, p, decode, got.world, issueNumber, title, body, [], []);
      AnalyzeFrame(env, p, decode, got.world, issueNumber, title, body, [], []);
      var a := analysed.result.value;
      StoredThenFollowedUp(env, p, analysed.world, got.result.value, issueNumber, repo, WorkflowStatus(a), a, body);
    }
  }

  /** The identifier `get_or_create_conversation` returns is that of the conversation a lookup finds. */
  lemma GetOrCreateFinds(fault: Fault, s: StoreState, issueNumber: int, issueId: int, repo: string)
    ensures var r := GetOrCreateStep(fault, s, issueNumber, issueId, repo);
      r.result.Ok? ==>
        && FindConversation(r.state.conversations, issueNumber, repo).Some?
        && FindConversation(r.state.conversations, issueNumber, repo).value.id == r.result.value
  {
    GetOrCreateReuses(fault, s, issueNumber, issueId, repo);
  }

  /**
    The follow-up: with clarification needed the first request is the
    questions comment; otherwise, when complete, it is the ready comment
    with the refined description or else the issue body; with neither flag
    the repository is not touched at all.
  */
  lemma WorkflowFollowUp(env: Env, p: Persona, decode: Decoder, w: World, issueNumber: int, issueId: int,
                         title: string, body: string, repo: string)
    ensures var r := WorkflowEffect(env, p, decode, w, issueNumber, issueId, title, body, repo);
      r.result.Ok? ==>
        var a := r.result.value.analysis.value;
        && (a.needsClarification ==>
              |r.world.repo.sent| > |w.repo.sent|
              && r.world.repo.sent[|w.repo.sent|] == CommentOnIssue(issueNumber, FormatComment(p.agentName, QuestionsBody(a.questions), true)))
        && (!a.needsClarification && a.isComplete ==>
              |r.world.repo.sent| > |w.repo.sent|
              && r.world.repo.sent[|w.repo.sent|]
                 == CommentOnIssue(issueNumber, FormatComment(p.agentName, ReadyBody(TextOr(a.refinedDescription, body), a.acceptanceCriteria), true)))
        && (!a.needsClarification && !a.isComplete ==> r.world.repo == w.repo)
  {
    var r := WorkflowEffect(env, p, decode, w, issueNumber, issueId, title, body, repo);
    if r.result.Ok? {
      var got := OnStore(w, GetOrCreateStep(env.fault, w.store, issueNumber, issueId, repo));
      AnalyzeFrame(env, p, decode, got.world, issueNumber, title, body, [], []);
      var analysed := AnalyzeEffect(env, p, decode, got.world, issueNumber, title, body, [], []);
      var a := analysed.result.value;
      var updated := UpdateStateEffect(env, analysed.world, got.result.value, WorkflowStatus(a), Some(a));
      assert updated.world.repo == w.repo;
      if a.needsClarification {
        AskEffectRequests(env, p, updated.world, issueNumber, a.questions);
      } else if a.isComplete {
        MarkReadyRequests(env, p, updated.world, issueNumber, TextOr(a.refinedDescription, body), a.acceptanceCriteria, a.suggestedLabels);
      }
    }
  }

  /** The questions comment, built one numbered line at a time. */
  method BuildQuestionsBody(questions: seq<string>) returns (body: string)
    ensures body == QuestionsBody(questions)
  {
    body := QuestionsHeader;
    var i := 0;
    while i < |questions|
      invariant 0 <= i <= |questions|
      invariant body == QuestionsHeader + NumberedLines(questions[..i], 1)
    {
      NumberedLinesSnoc(questions[..i], questions[i], 1);
      assert questions[..i + 1] == questions[..i] + [questions[i]];
      body := body + NumberedLine(questions[i], i + 1);
      i := i + 1;
    }
    assert questions[..|questions|] == questions;
    body := body + QuestionsFooter;
  }

  /** The ready comment; the criteria block is built only when there are criteria. */
  method BuildReadyBody(refined: string, criteria: seq<string>) returns (body: string)
    ensures body == ReadyBody(refined, criteria)
  {
    var head := ReadyHeader + refined + "\n\n";
    var block := "";
    if |criteria| > 0 {
      block := CriteriaHeading;
      var i := 0;
      while i < |criteria|
        invariant 0 <= i <= |criteria|
        invariant block == CriteriaHeading + NumberedLines(criteria[..i], 1)
      {
        NumberedLinesSnoc(criteria[..i], criteria[i], 1);
        assert criteria[..i + 1] == criteria[..i] + [criteria[i]];
        block := block + NumberedLine(criteria[i], i + 1);
        i := i + 1;
      }
      assert criteria[..|criteria|] == criteria;
      block := block + "\n";
    }
    assert block == CriteriaBlock(criteria);
    body := head + block + ReadyFooter;
  }

  /** `ProductOwnerAgent`. */
  class ProductOwnerAgent {
    const base: BaseAgent
    const decode: Decoder

    constructor (base: BaseAgent, decode: Decoder)
      ensures this.base == base && this.decode == decode
    {
      this.base := base;
      this.decode := decode;
    }

    method Parse(text: string) returns (r: Result<IssueAnalysis, Failure>)
      ensures r == ParseAnalysis(decode, text)
    {
      var raw := decode(text);
      if raw.None? {
        return Err(ParseFailed("Invalid json output"));
      }
      var validated := ValidateIssueAnalysis(raw.value);
      if validated.Err? {
        return Err(ParseFailed("Failed to parse IssueAnalysis: missing " + Join(validated.error, ", ")));
      }
      r := Ok(validated.value);
    }

    method AnalyzeIssue(issueNumber: int, title: string, body: string, labels: seq<string>, context: seq<(string, string)>)
      returns (r: Result<IssueAnalysis, Failure>)
      modifies base.llm, base.db
      ensures Effect(base.Snapshot(), r)
           == AnalyzeEffect(base.Environment(), base.persona, decode, old(base.Snapshot()), issueNumber, title, body, labels, context)
    {
      var messages := base.BuildMessages(AnalysisPrompt(title, body, labels), [], context);
      var response := base.InvokeWithRetry(messages, MaxRetries);
      if response.Err? {
        return Err(response.error);
      }
      var analysis := Parse(response.value);
      if analysis.Err? {
        return analysis;
      }
      var logged := base.LogAction("issue_analyzed", AnalysisPayload(issueNumber, analysis.value), None);
      if logged.Err? {
        return Err(logged.error);
      }
      r := analysis;
    }

    /** Posts the questions comment, labels the issue and logs. */
    method AskClarifyingQuestions(issue: int, questions: seq<string>) returns (r: Result<(), Failure>)
      modifies base.vcs, base.db
      ensures Effect(base.Snapshot(), r) == AskEffect(base.Environment(), base.persona, old(base.Snapshot()), issue, questions)
    {
      var body := BuildQuestionsBody(questions);
      var posted := base.CreateIssueComment(issue, FormatComment(base.persona.agentName, body, true));
      if posted.Err? {
        return posted;
      }
      var labelled := base.vcs.AddLabelsToIssue(issue, [NeedsClarificationLabel]);
      if labelled.Fail? {
        return Err(VcsFailed(labelled.error));
      }
      var logged := base.LogAction("questions_asked",
                                   map["issue_number" := VInt(issue), "questions" := VList(QuestionValues(questions))], None);
      r := if logged.Ok? then Ok(()) else Err(logged.error);
    }

    /** Posts the ready comment, then swaps the labels and logs. */
    method MarkReadyForDevelopment(issue: int, refined: string, criteria: seq<string>, suggested: seq<string>)
      returns (r: Result<(), Failure>)
      modifies base.vcs, base.db
      ensures Effect(base.Snapshot(), r)
           == MarkReadyEffect(base.Environment(), base.persona, old(base.Snapshot()), issue, refined, criteria, suggested)
    {
      var body := BuildReadyBody(refined, criteria);
      var posted := base.CreateIssueComment(issue, FormatComment(base.persona.agentName, body, true));
      if posted.Err? {
        return posted;
      }
      var removed := base.vcs.RemoveLabelsFromIssue(issue, [NeedsClarificationLabel]);
      if removed.Fail? {
        return Err(VcsFailed(removed.error));
      }
      var labelled := base.vcs.AddLabelsToIssue(issue, suggested + [ReadyForDevLabel]);
      if labelled.Fail? {
        return Err(VcsFailed(labelled.error));
      }
      var logged := base.LogAction("marked_ready_for_dev", ReadyPayload(issue, refined, criteria), None);
      r := if logged.Ok? then Ok(()) else Err(logged.error);
    }

    method ProcessUserResponse(conversationId: nat, responses: seq<string>) returns (r: Result<IssueAnalysis, Failure>)
      modifies base.llm, base.db
      ensures Effect(base.Snapshot(), r)
           == ProcessEffect(base.Environment(), base.persona, decode, old(base.Snapshot()), conversationId, responses)
    {
      var messages := base.BuildMessages(ResponsePrompt(responses), [], []);
      var response := base.InvokeWithRetry(messages, MaxRetries);
      if response.Err? {
        return Err(response.error);
      }
      var analysis := Parse(response.value);
      if analysis.Err? {
        return analysis;
      }
      var logged := base.LogAction("user_response_processed", ResponsePayload(conversationId, analysis.value), Some(conversationId));
      if logged.Err? {
        return Err(logged.error);
      }
      r := analysis;
    }

    method FollowUp(issue: int, a: IssueAnalysis, fallback: string) returns (r: Result<(), Failure>)
      modifies base.vcs, base.db
      ensures Effect(base.Snapshot(), r) == FollowUpEffect(base.Environment(), base.persona, old(base.Snapshot()), issue, a, fallback)
    {
      if a.needsClarification {
        r := AskClarifyingQuestions(issue, a.questions);
      } else if a.isComplete {
        r := MarkReadyForDevelopment(issue, TextOr(a.refinedDescription, fallback), a.acceptanceCriteria, a.suggestedLabels);
      } else {
        r := Ok(());
      }
    }

    method HandleIssueWorkflow(issueNumber: int, issueId: int, title: string, body: string, repo: string)
      returns (r: Result<ConversationState, Failure>)
      modifies base.llm, base.vcs, base.db
      ensures var spec := WorkflowEffect(base.Environment(), base.persona, decode, old(base.Snapshot()),
                                         issueNumber, issueId, title, body, repo);
        && base.Snapshot() == spec.world
        && r.Ok? == spec.result.Ok?
        && (r.Ok? ==> ViewOf(r.value) == spec.result.value)
        && (r.Err? ==> r.error == spec.result.error)
    {
      var id := base.GetOrCreateConversation(issueNumber, issueId, repo);
      if id.Err? {
        return Err(id.error);
      }
      var analysis := AnalyzeIssue(issueNumber, title, body, [], []);
      if analysis.Err? {
        return Err(analysis.error);
      }
      var a := analysis.value;
      var updated := base.UpdateConversationState(id.value, WorkflowStatus(a), Some(a));
      if updated.Err? {
        return Err(updated.error);
      }
      var followed := FollowUp(issueNumber, a, body);
      if followed.Err? {
        return Err(followed.error);
      }
      var state := new ConversationState.WithStatus(issueId, issueNumber, repo, WorkflowStatus(a), Some(a));
      r := Ok(state);
    }
  }
}
