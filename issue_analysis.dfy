/**
  The product owner's analysis of an issue, the turns of a clarification
  conversation, and the conversation state object with its turn numbering
  and its status rule.
*/
module IssueAnalysisModel {
  import opened Wrappers

  const StatusAnalyzing := "analyzing"
  const StatusNeedsClarification := "needs_clarification"
  const StatusReadyForDev := "ready_for_dev"
  const StatusInDevelopment := "in_development"

  /** `IssueAnalysis` (the floating-point effort estimate is not modelled). */
  datatype IssueAnalysis = IssueAnalysis(
    needsClarification: bool,
    questions: seq<string>,
    refinedDescription: Option<string>,
    isComplete: bool,
    estimatedComplexity: string,
    suggestedLabels: seq<string>,
    acceptanceCriteria: seq<string>,
    technicalConsiderations: seq<string>,
    dependencies: seq<string>
  )

  /** The fields of an analysis as they arrive in a JSON object; `None` is an absent key. */
  datatype RawIssueAnalysis = RawIssueAnalysis(
    needsClarification: Option<bool>,
    questions: Option<seq<string>>,
    refinedDescription: Option<string>,
    isComplete: Option<bool>,
    estimatedComplexity: Option<string>,
    suggestedLabels: Option<seq<string>>,
    acceptanceCriteria: Option<seq<string>>,
    technicalConsiderations: Option<seq<string>>,
    dependencies: Option<seq<string>>
  )

  function ListOrEmpty(o: Option<seq<string>>): seq<string> {
    if o.Some? then o.value else []
  }

  /** Model validation: the two required fields must be present, the rest take their defaults. */
  function ValidateIssueAnalysis(raw: RawIssueAnalysis): Result<IssueAnalysis, seq<string>> {
    var missing :=
      (if raw.needsClarification.None? then ["needs_clarification"] else [])
      + (if raw.estimatedComplexity.None? then ["estimated_complexity"] else []);
    if missing != [] then Err(missing)
    else Ok(IssueAnalysis(
      raw.needsClarification.value,
      ListOrEmpty(raw.questions),
      raw.refinedDescription,
      if raw.isComplete.Some? then raw.isComplete.value else false,
      raw.estimatedComplexity.value,
      ListOrEmpty(raw.suggestedLabels),
      ListOrEmpty(raw.acceptanceCriteria),
      ListOrEmpty(raw.technicalConsiderations),
      ListOrEmpty(raw.dependencies)))
  }

  /** `model_dump()`: every field written out. */
  function DumpIssueAnalysis(a: IssueAnalysis): RawIssueAnalysis {
    RawIssueAnalysis(
      Some(a.needsClarification), Some(a.questions), a.refinedDescription, Some(a.isComplete),
      Some(a.estimatedComplexity), Some(a.suggestedLabels), Some(a.acceptanceCriteria),
      Some(a.technicalConsiderations), Some(a.dependencies))
  }

  /** Validation accepts exactly the objects carrying both required fields. */
  lemma ValidateIssueAnalysisRequired(raw: RawIssueAnalysis)
    ensures ValidateIssueAnalysis(raw).Ok? <==> raw.needsClarification.Some? && raw.estimatedComplexity.Some?
    ensures raw.needsClarification.None? && raw.estimatedComplexity.None? ==>
      ValidateIssueAnalysis(raw) == Err(["needs_clarification", "estimated_complexity"])
  {
    assert ["needs_clarification"] + ["estimated_complexity"] == ["needs_clarification", "estimated_complexity"];
  }

  /**
    The defaults: an object with only the required fields is complete=false,
    has no refined description and empty lists.
  */
  lemma IssueAnalysisDefaults(needsClarification: bool, complexity: string)
    ensures var r := ValidateIssueAnalysis(RawIssueAnalysis(Some(needsClarification), None, None, None,
                                                             Some(complexity), None, None, None, None));
      && r.Ok?
      && r.value.needsClarification == needsClarification
      && r.value.estimatedComplexity == complexity
      && !r.value.isComplete
      && r.value.refinedDescription.None?
      && r.value.questions == [] && r.value.suggestedLabels == [] && r.value.acceptanceCriteria == []
      && r.value.technicalConsiderations == [] && r.value.dependencies == []
  {
  }

  /** Dumping and validating again gives the same analysis back. */
  lemma DumpValidateRoundTrip(a: IssueAnalysis)
    ensures ValidateIssueAnalysis(DumpIssueAnalysis(a)) == Ok(a)
  {
  }

  /** A turn number is at least 1. */
  type TurnNumber = n: int | n >= 1 witness 1

  /** `ConversationTurn` (the timestamp is not modelled). */
  datatype ConversationTurn = ConversationTurn(
    turnNumber: TurnNumber,
    agentQuestions: seq<string>,
    userResponses: Option<seq<string>>
  )

  /** Building a turn from an arbitrary integer: numbers below 1 are rejected. */
  function MakeTurn(turnNumber: int, agentQuestions: seq<string>, userResponses: Option<seq<string>>)
    : (r: Result<ConversationTurn, string>)
    ensures r.Ok? <==> turnNumber >= 1
    ensures r.Ok? ==> r.value.turnNumber == turnNumber && r.value.agentQuestions == agentQuestions
                      && r.value.userResponses == userResponses
  {
    if turnNumber < 1 then Err("turn_number: Input should be greater than or equal to 1")
    else Ok(ConversationTurn(turnNumber, agentQuestions, userResponses))
  }

  /** Turns numbered 1, 2, ... in list order. */
  predicate ConsecutivelyNumbered(turns: seq<ConversationTurn>) {
    forall k :: 0 <= k < |turns| ==> turns[k].turnNumber == k + 1
  }

  /** The turn `add_turn` appends to a conversation that has `turns`. */
  function NextTurn(turns: seq<ConversationTurn>, agentQuestions: seq<string>, userResponses: Option<seq<string>>)
    : ConversationTurn
  {
    ConversationTurn(|turns| + 1, agentQuestions, userResponses)
  }

  /** Appending the next turn keeps the numbering consecutive. */
  lemma NextTurnKeepsNumbering(turns: seq<ConversationTurn>, agentQuestions: seq<string>,
                               userResponses: Option<seq<string>>)
    requires ConsecutivelyNumbered(turns)
    ensures ConsecutivelyNumbered(turns + [NextTurn(turns, agentQuestions, userResponses)])
  {
  }

  /** The turns a conversation holds after `add_turn` was called once per question list. */
  function TurnsAfter(questionLists: seq<seq<string>>): (turns: seq<ConversationTurn>)
    ensures |turns| == |questionLists|
  {
    if |questionLists| == 0 then []
    else
      var earlier := TurnsAfter(questionLists[..|questionLists| - 1]);
      earlier + [NextTurn(earlier, questionLists[|questionLists| - 1], None)]
  }

  /** After k calls of `add_turn` the turns are numbered 1..k and keep their questions. */
  lemma {:induction false} TurnsAfterNumbering(questionLists: seq<seq<string>>)
    ensures ConsecutivelyNumbered(TurnsAfter(questionLists))
    ensures forall k :: 0 <= k < |questionLists| ==> TurnsAfter(questionLists)[k].agentQuestions == questionLists[k]
  {
    if |questionLists| > 0 {
      var init := questionLists[..|questionLists| - 1];
      TurnsAfterNumbering(init);
      NextTurnKeepsNumbering(TurnsAfter(init), questionLists[|questionLists| - 1], None);
    }
  }

  /** The status rule of `update_analysis`: completeness first, then clarification, else analysing. */
  function StateStatus(a: IssueAnalysis): string {
    if a.isComplete then StatusReadyForDev
    else if a.needsClarification then StatusNeedsClarification
    else StatusAnalyzing
  }

  /** Each status value of `update_analysis`, and the flags that lead to it. */
  lemma StateStatusCases(a: IssueAnalysis)
    ensures StateStatus(a) == StatusReadyForDev <==> a.isComplete
    ensures StateStatus(a) == StatusNeedsClarification <==> !a.isComplete && a.needsClarification
    ensures StateStatus(a) == StatusAnalyzing <==> !a.isComplete && !a.needsClarification
  {
  }

  /** `ConversationState`: a conversation about one issue, updated in place. */
  class ConversationState {
    const issueId: int
    const issueNumber: int
    const repoFullName: string
    var status: string
    var turns: seq<ConversationTurn>
    var currentAnalysis: Option<IssueAnalysis>

    /** The turns are numbered 1..k in order. */
    predicate Valid()
      reads this
    {
      ConsecutivelyNumbered(turns)
    }

    /** A fresh conversation: analysing, no turns, no analysis. */
    constructor (issueId: int, issueNumber: int, repoFullName: string)
      ensures this.issueId == issueId && this.issueNumber == issueNumber && this.repoFullName == repoFullName
      ensures status == StatusAnalyzing && turns == [] && currentAnalysis == None
      ensures Valid()
    {
      this.issueId := issueId;
      this.issueNumber := issueNumber;
      this.repoFullName := repoFullName;
      status := StatusAnalyzing;
      turns := [];
      currentAnalysis := None;
    }

    /** The state objects the agents return: a given status and analysis, no turns. */
    constructor WithStatus(issueId: int, issueNumber: int, repoFullName: string, status: string,
                           currentAnalysis: Option<IssueAnalysis>)
      ensures this.issueId == issueId && this.issueNumber == issueNumber && this.repoFullName == repoFullName
      ensures this.status == status && turns == [] && this.currentAnalysis == currentAnalysis
      ensures Valid()
    {
      this.issueId := issueId;
      this.issueNumber := issueNumber;
      this.repoFullName := repoFullName;
      this.status := status;
      turns := [];
      this.currentAnalysis := currentAnalysis;
    }

    /** `add_turn`: appends the next-numbered turn and returns it; earlier turns are untouched. */
    method AddTurn(agentQuestions: seq<string>, userResponses: Option<seq<string>>) returns (turn: ConversationTurn)
      requires Valid()
      modifies this
      ensures turn == NextTurn(old(turns), agentQuestions, userResponses)
      ensures turn.turnNumber == |old(turns)| + 1
      ensures turns == old(turns) + [turn]
      ensures status == old(status) && currentAnalysis == old(currentAnalysis)
      ensures Valid()
    {
      NextTurnKeepsNumbering(turns, agentQuestions, userResponses);
      turn := NextTurn(turns, agentQuestions, userResponses);
      turns := turns + [turn];
    }

    /** `update_analysis`: stores the analysis and sets the status from its flags. */
    method UpdateAnalysis(analysis: IssueAnalysis)
      requires Valid()
      modifies this
      ensures currentAnalysis == Some(analysis)
      ensures status == StateStatus(analysis)
      ensures turns == old(turns)
      ensures Valid()
    {
      currentAnalysis := Some(analysis);
      if analysis.isComplete {
        status := StatusReadyForDev;
      } else if analysis.needsClarification {
        status := StatusNeedsClarification;
      } else {
        status := StatusAnalyzing;
      }
    }
  }
}
