/**
  The GitHub webhook gateway of the main instance: the signature check,
  the payload, and the routing of each event to the orchestrator.

  The HMAC-SHA256 hex digest is an opaque `Signer`, and reading the JSON
  body is an opaque decoder that either fails or yields the fields the
  gateway reads. The gateway builds both agents over the same backend,
  repository client and store client, so one `World` holds what every
  handler changes.
*/
module Webhooks {
  import opened Wrappers
  import opened Text
  import opened Vcs
  import opened Store
  import opened IssueAnalysisModel
  import opened CodeGenerationModel
  import opened AgentBase
  import opened ProductOwner
  import opened Developer
  import opened Orchestrator

  /** The hex HMAC-SHA256 of a body under a secret. */
  type Signer = (string, seq<bv8>) -> string

  /** The headers and raw body of one delivery. */
  datatype Request = Request(event: Option<string>, signature: Option<string>, body: seq<bv8>)

  /**
    The fields of a payload that the gateway reads, each as the handler's
    `.get` reads it: a missing action, label name or comment user type is
    `None` and a missing body is "". A pull request's body is `None` when
    the payload holds null there.
  */
  datatype Payload = Payload(
    action: Option<string>,
    issueNumber: int,
    issueId: int,
    issueTitle: string,
    issueBody: string,
    repoFullName: string,
    labelName: Option<string>,
    commentUserType: Option<string>,
    commentBody: string,
    prNumber: int,
    prBody: Option<string>
  )

  /**
    How `create_agents` fares with the three collaborators it builds, in
    order: the error raised building the chat model (as
    `LlmFactory.FromSettings` fails), the one raised by the GitHub client's
    repository lookup, and the one raised building the store client; each
    is `None` when that collaborator builds.
  */
  datatype Construction = Construction(llm: Option<string>, repo: Option<string>, store: Option<string>)

  /** The error `create_agents` raises: the first collaborator that fails to build stops it. */
  function BuildError(c: Construction): Option<string> {
    if c.llm.Some? then c.llm
    else if c.repo.Some? then c.repo
    else c.store
  }

  /** What the gateway is configured with, and how building its collaborators goes. */
  datatype Gateway = Gateway(secret: string, sign: Signer, decode: seq<bv8> -> Option<Payload>, build: Construction)

  /** The personas and answer decoders of the two agents. */
  datatype Crew = Crew(po: Persona, poDecode: Decoder, dev: Persona, devDecode: GenerationDecoder)

  /** An HTTP response: its status code and its JSON object. */
  datatype Response = Response(code: int, content: map<string, Value>)

  /** The world after a delivery, and what the gateway answered. */
  datatype Delivery<R> = Delivery(world: World, response: R)

  const SignaturePrefix := "sha256="
  const NonAsciiError := "comparing strings with non-ASCII characters is not supported"
  const InvalidJsonError := "Expecting value: line 1 column 1 (char 0)"
  const NotIterableError := "argument of type 'NoneType' is not iterable"

  // ---------------------------------------------------------------
  // Signature
  // ---------------------------------------------------------------

  predicate IsAscii(s: string) {
    forall k :: 0 <= k < |s| ==> s[k] < '\U{80}'
  }

  /** The digest a header names: the text between its first and second "=". */
  function NamedDigest(header: string): (d: string)
    requires StartsWith(header, SignaturePrefix)
    ensures d == Split(header[|SignaturePrefix|..], '=')[0]
    ensures '=' !in d
  {
    var rest := header[|SignaturePrefix|..];
    assert header == "sha256" + ['='] + rest;
    SplitAfterPiece("sha256", '=', rest);
    SplitPiecesHaveNoSeparator(header, '=');
    Split(header, '=')[1]
  }

  /**
    `verify_github_signature`: a missing or empty header, or one without
    the "sha256=" prefix, is rejected; otherwise the named digest must
    equal the body's digest. Comparing a text with a non-ASCII character
    raises instead of answering.
  */
  function VerifySignature(sign: Signer, secret: string, body: seq<bv8>, header: Option<string>): (r: Result<bool, string>)
    ensures header.None? || header.value == "" || !StartsWith(header.value, SignaturePrefix) ==> r == Ok(false)
    ensures r == Ok(true) <==>
      && header.Some? && StartsWith(header.value, SignaturePrefix)
      && IsAscii(NamedDigest(header.value)) && IsAscii(sign(secret, body))
      && sign(secret, body) == Split(header.value[|SignaturePrefix|..], '=')[0]
    ensures r.Err? <==>
      header.Some? && StartsWith(header.value, SignaturePrefix)
      && !(IsAscii(NamedDigest(header.value)) && IsAscii(sign(secret, body)))
  {
    if header.None? || header.value == "" then Ok(false)
    else if !StartsWith(header.value, SignaturePrefix) then Ok(false)
    else
      var expected := NamedDigest(header.value);
      var computed := sign(secret, body);
      if !IsAscii(computed) || !IsAscii(expected) then Err(NonAsciiError)
      else Ok(computed == expected)
  }

  /** Whatever follows a second "=" in the header is ignored. */
  lemma {:induction false} SignatureIgnoresTail(sign: Signer, secret: string, body: seq<bv8>, digest: string, tail: string)
    requires '=' !in digest
    ensures VerifySignature(sign, secret, body, Some(SignaturePrefix + digest + "=" + tail))
         == VerifySignature(sign, secret, body, Some(SignaturePrefix + digest))
  {
    var long := SignaturePrefix + digest + "=" + tail;
    var short := SignaturePrefix + digest;
    assert StartsWith(long, SignaturePrefix) && StartsWith(short, SignaturePrefix);
    assert long[|SignaturePrefix|..] == digest + ['='] + tail;
    assert short[|SignaturePrefix|..] == digest;
    SplitAfterPiece(digest, '=', tail);
    SplitWithoutSeparator(digest, '=');
  }

  /** The header GitHub sends, the prefix and the body's own digest, is accepted. */
  lemma {:induction false} SignatureAcceptsOwnDigest(sign: Signer, secret: string, body: seq<bv8>)
    requires IsAscii(sign(secret, body)) && '=' !in sign(secret, body)
    ensures VerifySignature(sign, secret, body, Some(SignaturePrefix + sign(secret, body))) == Ok(true)
  {
    var header := SignaturePrefix + sign(secret, body);
    assert StartsWith(header, SignaturePrefix);
    assert header[|SignaturePrefix|..] == sign(secret, body);
    SplitWithoutSeparator(sign(secret, body), '=');
  }

  // ---------------------------------------------------------------
  // The linked issue of a pull request
  // ---------------------------------------------------------------

  /** `[Cc]loses #\d` matches at position `i`. */
  predicate ClosesAt(s: string, i: int) {
    && 0 <= i && i + 9 <= |s|
    && (s[i..i + 8] == "Closes #" || s[i..i + 8] == "closes #")
    && IsDigit(s[i + 8])
  }

  /** The longest run of digits at the start of `s`. */
  function DigitRun(s: string): (r: string)
    ensures AllDigits(r) && |r| <= |s| && r == s[..|r|]
    ensures |r| == |s| || !IsDigit(s[|r|])
  {
    if |s| > 0 && IsDigit(s[0]) then [s[0]] + DigitRun(s[1..]) else ""
  }

  /** The first position at or after `from` where the pattern matches. */
  function FindCloses(s: string, from: nat): (r: Option<nat>)
    requires from <= |s|
    ensures r.None? <==> forall i :: from <= i < |s| ==> !ClosesAt(s, i)
    ensures r.Some? ==> from <= r.value < |s| && ClosesAt(s, r.value)
    ensures r.Some? ==> forall i :: from <= i < r.value ==> !ClosesAt(s, i)
    decreases |s| - from
  {
    if from == |s| then None
    else if ClosesAt(s, from) then Some(from)
    else FindCloses(s, from + 1)
  }

  /** The issue a pull request's body closes: the digits after the first "Closes #" or "closes #". */
  function LinkedIssue(body: string): (r: Option<int>)
    ensures r.None? <==> forall i :: 0 <= i < |body| ==> !ClosesAt(body, i)
    ensures r.Some? ==> r.value >= 0
  {
    match FindCloses(body, 0)
    case None => None
    case Some(i) => Some(ParseDigits(DigitRun(body[i + 8..])))
  }

  /** The issue is read from the first match, and only its leading digits count. */
  lemma LinkedIssueFirstMatch(body: string, i: nat)
    requires ClosesAt(body, i) && forall j :: 0 <= j < i ==> !ClosesAt(body, j)
    ensures LinkedIssue(body) == Some(ParseDigits(DigitRun(body[i + 8..])))
  {
    var found := FindCloses(body, 0);
    assert found.Some?;
    assert !(found.value < i) && !(i < found.value);
  }

  /** A newline inside the nine characters at `i` rules out a match there. */
  lemma NoMatchOverNewline(s: string, i: int, j: int)
    requires 0 <= i <= j < |s| && j < i + 9 && s[j] == '\n'
    ensures !ClosesAt(s, i)
  {
  }

  /** No match starts in a body that has none, or in the blank line after it. */
  lemma NoMatchBeforeLink(body: string, tail: string, j: int)
    requires forall i :: 0 <= i < |body| ==> !ClosesAt(body, i)
    requires 0 <= j < |body| + 2
    ensures !ClosesAt(body + "\n\n" + tail, j)
  {
    var s := body + "\n\n" + tail;
    if j + 9 <= |body| {
      assert s[j..j + 9] == body[j..j + 9];
      assert !ClosesAt(body, j);
    } else if j <= |body| {
      NoMatchOverNewline(s, j, |body|);
    } else {
      NoMatchOverNewline(s, j, j);
    }
  }

  lemma NoMatchBeforeLinkAt(body: string, tail: string)
    requires forall i :: 0 <= i < |body| ==> !ClosesAt(body, i)
    ensures forall j :: 0 <= j < |body| + 2 ==> !ClosesAt(body + "\n\n" + tail, j)
  {
    forall j | 0 <= j < |body| + 2
      ensures !ClosesAt(body + "\n\n" + tail, j)
    {
      NoMatchBeforeLink(body, tail, j);
    }
  }

  /** The appended line matches right after the blank line, and its digits run to the end. */
  lemma MatchAtLink(body: string, n: nat)
    ensures ClosesAt(body + "\n\n" + ClosesText(n), |body| + 2)
    ensures (body + "\n\n" + ClosesText(n))[|body| + 10..] == NatToString(n)
  {
    var digits := NatToString(n);
    var s := body + "\n\n" + ClosesText(n);
    assert ClosesText(n) == "Closes #" + digits;
    var at := |body| + 2;
    assert s[at..] == "Closes #" + digits;
    assert s[at..at + 8] == "Closes #";
    assert s[at + 8] == digits[0];
    assert s[at + 8..] == digits;
  }

  /** A first match followed by nothing but digits reads as those digits. */
  lemma ReadsDigitsToEnd(s: string, at: nat, digits: string)
    requires ClosesAt(s, at) && forall j :: 0 <= j < at ==> !ClosesAt(s, j)
    requires AllDigits(digits) && s[at + 8..] == digits
    ensures LinkedIssue(s) == Some(ParseDigits(digits))
  {
    LinkedIssueFirstMatch(s, at);
    assert DigitRun(s[at + 8..]) == digits;
  }

  /**
    The line the developer's link step appends ("Closes #N" after a blank
    line) is read back by the gateway as issue N, provided the original
    body does not already close an issue.
  */
  lemma LinkedIssueReadsLink(body: string, n: nat)
    requires forall i :: 0 <= i < |body| ==> !ClosesAt(body, i)
    ensures LinkedIssue(body + "\n\n" + ClosesText(n)) == Some(n)
  {
    MatchAtLink(body, n);
    NoMatchBeforeLinkAt(body, ClosesText(n));
    ReadsDigitsToEnd(body + "\n\n" + ClosesText(n), |body| + 2, NatToString(n));
    ParseNatToString(n);
  }

  // ---------------------------------------------------------------
  // Responses
  // ---------------------------------------------------------------

  function Reply(status: string, message: string): Response {
    Response(200, map["status" := VStr(status), "message" := VStr(message)])
  }

  /** The raised 401 HTTPException, as FastAPI renders it. */
  const Unauthorized := Response(401, map["detail" := VStr("Invalid signature")])

  function ServerError(message: string): Response {
    Response(500, map["status" := VStr("error"), "message" := VStr(message)])
  }

  /** An f-string's rendering of an optional text. */
  function Shown(t: Option<string>): string {
    if t.Some? then t.value else "None"
  }

  function NotHandled(what: string, t: Option<string>): Response {
    Reply("ignored", what + " '" + Shown(t) + "' not handled")
  }

  /** An exception that left a handler becomes a 500 answer carrying its text. */
  function Failed(w: World, f: Failure): Delivery<Response> {
    Delivery(w, ServerError(ErrorText(f)))
  }

  // ---------------------------------------------------------------
  // Routing
  // ---------------------------------------------------------------

  /** A missing label name is never the trigger label. */
  function LabelText(name: Option<string>): string {
    if name.Some? then name.value else ""
  }

  /** `handle_issues_event`. */
  function IssuesEvent(env: Env, crew: Crew, w: World, p: Payload): Delivery<Response> {
    if p.action == Some("opened") then
      var e := WorkflowEffect(env, crew.po, crew.poDecode, w, p.issueNumber, p.issueId, p.issueTitle, p.issueBody,
                              p.repoFullName);
      if e.result.Err? then Failed(e.world, e.result.error)
      else Delivery(e.world, Response(200, map["status" := VStr("success"), "message" := VStr("Issue analyzed"),
                                               "conversation_status" := VStr(e.result.value.status)]))
    else if p.action == Some("labeled") then
      var e := LabelEffect(env.fault, w.store, env, crew.dev, crew.devDecode, w, p.issueNumber, LabelText(p.labelName),
                           p.repoFullName);
      if e.result.Err? then Failed(e.world, e.result.error)
      else if e.result.value.None? then Delivery(e.world, Reply("ignored", "Label not a trigger"))
      else
        var result := e.result.value.value;
        Delivery(e.world, Response(200, map["status" := VStr("success"), "message" := VStr("Development triggered"),
                                            "pr_created" := VBool(result.prNumber.Some?),
                                            "pr_number" := OptionalInt(result.prNumber)]))
    else Delivery(w, NotHandled("Action", p.action))
  }

  /** `handle_issue_comment_event`: bots are ignored, and only new comments are processed. */
  function CommentEvent(env: Env, crew: Crew, w: World, p: Payload): Delivery<Response> {
    if p.commentUserType == Some("Bot") then Delivery(w, Reply("ignored", "Bot comment"))
    else if p.action == Some("created") then
      var e := IssueCommentEffect(env, crew.po, crew.poDecode, w, p.issueNumber, p.commentBody, p.repoFullName);
      if e.result.Err? then Failed(e.world, e.result.error)
      else if e.result.value.None? then Delivery(e.world, Reply("ignored", "No active conversation"))
      else Delivery(e.world, Response(200, map["status" := VStr("success"), "message" := VStr("Comment processed"),
                                               "conversation_status" := VStr(e.result.value.value.status)]))
    else Delivery(w, NotHandled("Action", p.action))
  }

  /** `handle_pull_request_event`: the linked issue is read first, whatever the action. */
  function PullRequestEvent(env: Env, w: World, p: Payload): Delivery<Response> {
    if p.prBody.None? then Delivery(w, ServerError(NotIterableError))
    else if p.action == Some("opened") then
      var e := PrOpenedEffect(env, w, LinkedIssue(p.prBody.value), p.repoFullName);
      if e.result.Err? then Failed(e.world, e.result.error)
      else Delivery(e.world, Reply("success", "PR event processed"))
    else Delivery(w, NotHandled("Action", p.action))
  }

  function Route(env: Env, crew: Crew, w: World, event: Option<string>, p: Payload): Delivery<Response> {
    if event == Some("issues") then IssuesEvent(env, crew, w, p)
    else if event == Some("issue_comment") then CommentEvent(env, crew, w, p)
    else if event == Some("pull_request") then PullRequestEvent(env, w, p)
    else if event == Some("ping") then Delivery(w, Reply("success", "Pong!"))
    else Delivery(w, NotHandled("Event type", event))
  }

  /** `github_webhook`: signature, then payload, then the agents, then the event's handler. */
  function WebhookDelivery(g: Gateway, env: Env, crew: Crew, w: World, req: Request): Delivery<Response> {
    match VerifySignature(g.sign, g.secret, req.body, req.signature)
    case Err(e) => Delivery(w, ServerError(e))
    case Ok(valid) =>
      if !valid then Delivery(w, Unauthorized)
      else match g.decode(req.body)
        case None => Delivery(w, ServerError(InvalidJsonError))
        case Some(p) =>
          match BuildError(g.build)
          case Some(e) => Delivery(w, ServerError(e))
          case None => Route(env, crew, w, req.event, p)
  }

  // ---------------------------------------------------------------
  // Properties of the gateway
  // ---------------------------------------------------------------

  /**
    A bad signature is answered 401 before the payload is read (any decoder
    gives the same answer) and before any agent acts; conversely a 401 means
    the signature was bad.
  */
  lemma RejectsBadSignature(g: Gateway, env: Env, crew: Crew, w: World, req: Request,
                            other: seq<bv8> -> Option<Payload>)
    ensures var d := WebhookDelivery(g, env, crew, w, req);
      && (VerifySignature(g.sign, g.secret, req.body, req.signature) == Ok(false) ==>
            d == Delivery(w, Unauthorized) && d == WebhookDelivery(g.(decode := other), env, crew, w, req))
      && (d.response.code == 401 ==> VerifySignature(g.sign, g.secret, req.body, req.signature) == Ok(false))
  {
    DeliveryAnswers(g, env, crew, w, req);
  }

  /**
    When building the agents fails, a signed and readable delivery is
    answered 500 with that error whatever its event, a ping included, and
    no handler runs: the world is left as it was.
  */
  lemma BuildFailureAnswers(g: Gateway, env: Env, crew: Crew, w: World, req: Request)
    requires VerifySignature(g.sign, g.secret, req.body, req.signature) == Ok(true) && g.decode(req.body).Some?
    ensures var d := WebhookDelivery(g, env, crew, w, req);
      && (BuildError(g.build).Some? ==> d == Delivery(w, ServerError(BuildError(g.build).value)))
      && (BuildError(g.build).None? ==> d == Route(env, crew, w, req.event, g.decode(req.body).value))
      && (BuildError(g.build).None? <==> g.build.llm.None? && g.build.repo.None? && g.build.store.None?)
      && (g.build.llm.Some? ==> d.response == ServerError(g.build.llm.value))
  {
  }

  /** Every answer is 200, 401 or 500, and a 500 answer has status "error". */
  lemma ResponseCodes(g: Gateway, env: Env, crew: Crew, w: World, req: Request)
    ensures var d := WebhookDelivery(g, env, crew, w, req);
      && (d.response.code == 200 || d.response.code == 401 || d.response.code == 500)
      && (d.response.code == 500 ==> "status" in d.response.content && d.response.content["status"] == VStr("error"))
  {
    DeliveryAnswers(g, env, crew, w, req);
  }

  /** What a handler answers: 200, or 500 with status "error". */
  predicate HandlerAnswer(r: Response) {
    && (r.code == 200 || r.code == 500)
    && (r.code == 500 ==> "status" in r.content && r.content["status"] == VStr("error"))
  }

  /** Past the signature check the answer is a handler's; 401 comes only from the check. */
  lemma DeliveryAnswers(g: Gateway, env: Env, crew: Crew, w: World, req: Request)
    ensures var d := WebhookDelivery(g, env, crew, w, req);
      if VerifySignature(g.sign, g.secret, req.body, req.signature) == Ok(false) then d.response == Unauthorized
      else HandlerAnswer(d.response)
  {
    var v := VerifySignature(g.sign, g.secret, req.body, req.signature);
    if v == Ok(true) && g.decode(req.body).Some? && BuildError(g.build).None? {
      RouteAnswers(env, crew, w, req.event, g.decode(req.body).value);
    }
  }

  lemma RouteAnswers(env: Env, crew: Crew, w: World, event: Option<string>, p: Payload)
    ensures HandlerAnswer(Route(env, crew, w, event, p).response)
  {
    if event == Some("issues") {
      IssuesAnswers(env, crew, w, p);
    } else if event == Some("issue_comment") {
      CommentAnswers(env, crew, w, p);
    } else if event == Some("pull_request") {
      PullRequestAnswers(env, w, p);
    }
  }

  lemma IssuesAnswers(env: Env, crew: Crew, w: World, p: Payload)
    ensures HandlerAnswer(IssuesEvent(env, crew, w, p).response)
  {
  }

  lemma CommentAnswers(env: Env, crew: Crew, w: World, p: Payload)
    ensures HandlerAnswer(CommentEvent(env, crew, w, p).response)
  {
  }

  lemma PullRequestAnswers(env: Env, w: World, p: Payload)
    ensures HandlerAnswer(PullRequestEvent(env, w, p).response)
  {
  }

  /** "ping" and unknown events are answered without any agent acting. */
  lemma PingAndUnknownEvents(env: Env, crew: Crew, w: World, event: Option<string>, p: Payload)
    requires event !in {Some("issues"), Some("issue_comment"), Some("pull_request")}
    ensures var d := Route(env, crew, w, event, p);
      && d.world == w
      && (event == Some("ping") ==> d.response == Reply("success", "Pong!"))
      && (event != Some("ping") ==> d.response.code == 200 && d.response.content["status"] == VStr("ignored"))
  {
  }

  /**
    An opened issue runs the product owner's workflow, and the answer
    carries the status it stored; any other action except "labeled" is
    ignored without effect.
  */
  lemma OpenedIssueRunsWorkflow(env: Env, crew: Crew, w: World, p: Payload)
    ensures var d := IssuesEvent(env, crew, w, p);
      && (p.action == Some("opened") ==>
            var e := WorkflowEffect(env, crew.po, crew.poDecode, w, p.issueNumber, p.issueId, p.issueTitle, p.issueBody,
                                    p.repoFullName);
            && d.world == e.world
            && (e.result.Ok? ==> d.response.code == 200 && d.response.content["conversation_status"] == VStr(e.result.value.status))
            && (e.result.Err? ==> d.response == ServerError(ErrorText(e.result.error))))
      && (p.action != Some("opened") && p.action != Some("labeled") ==> d.world == w && d.response.code == 200)
  {
  }

  /** A label that does not start development is answered "Label not a trigger". */
  lemma LabeledIssueAnswers(env: Env, crew: Crew, w: World, p: Payload)
    requires p.action == Some("labeled")
    ensures var d := IssuesEvent(env, crew, w, p);
      !Triggers(env.fault, w.store, p.issueNumber, LabelText(p.labelName), p.repoFullName)
      && GetConversationAt(env.fault, w.store, p.issueNumber, p.repoFullName).Ok?
      && (LabelText(p.labelName) == ReadyForDevLabel ==>
            var found := GetConversationAt(env.fault, w.store, p.issueNumber, p.repoFullName);
            found.value.None? || found.value.value.analysis.Some?)
      ==> d == Delivery(w, Reply("ignored", "Label not a trigger"))
  {
    LabelRunsDeveloperOnce(env.fault, w.store, env, crew.dev, crew.devDecode, w, p.issueNumber, LabelText(p.labelName),
                           p.repoFullName);
  }

  /** A bot's comment is ignored whatever the action; only a created comment reaches the orchestrator. */
  lemma CommentRouting(env: Env, crew: Crew, w: World, p: Payload)
    ensures var d := CommentEvent(env, crew, w, p);
      && (p.commentUserType == Some("Bot") ==> d == Delivery(w, Reply("ignored", "Bot comment")))
      && (p.action != Some("created") ==> d.world == w && d.response.code == 200)
      && (p.commentUserType != Some("Bot") && p.action == Some("created") ==>
            var e := IssueCommentEffect(env, crew.po, crew.poDecode, w, p.issueNumber, p.commentBody, p.repoFullName);
            && d.world == e.world
            && (e.result == Ok(None) ==> d.response == Reply("ignored", "No active conversation")))
  {
  }

  /**
    Only an opened pull request reaches the orchestrator, with the issue
    its body closes; a null body is a server error whatever the action.
  */
  lemma PullRequestRouting(env: Env, w: World, p: Payload)
    ensures var d := PullRequestEvent(env, w, p);
      && (p.prBody.None? ==> d == Delivery(w, ServerError(NotIterableError)))
      && (p.action != Some("opened") ==> d.world == w)
      && (p.prBody.Some? && p.action == Some("opened") ==>
            d.world == PrOpenedEffect(env, w, LinkedIssue(p.prBody.value), p.repoFullName).world)
  {
  }

  // ---------------------------------------------------------------
  // The gateway
  // ---------------------------------------------------------------

  function WorldOf(llm: Llm, vcs: Repo, db: Client): World
    reads llm, vcs, db
  {
    World(vcs.Snapshot(), db.Snapshot(), llm.calls)
  }

  function EnvOf(llm: Llm, vcs: Repo, db: Client): Env {
    Env(vcs.service, db.fault, llm.backend, vcs.name)
  }

  /**
    `create_agents`: the error of the first collaborator that fails to
    build, or both agents over the same three collaborators.
  */
  method CreateAgents(crew: Crew, build: Construction, llm: Llm, vcs: Repo, db: Client)
    returns (r: Result<(ProductOwnerAgent, DeveloperAgent), string>)
    ensures r.Err? <==> build.llm.Some? || build.repo.Some? || build.store.Some?
    ensures r.Err? ==> Some(r.error) == BuildError(build)
    ensures r.Ok? ==>
      var (po, dev) := r.value;
      && po.base.llm == llm && po.base.vcs == vcs && po.base.db == db
      && dev.base.llm == llm && dev.base.vcs == vcs && dev.base.db == db
      && po.base.persona == crew.po && po.decode == crew.poDecode
      && dev.base.persona == crew.dev && dev.decode == crew.devDecode
  {
    if build.llm.Some? {
      return Err(build.llm.value);
    }
    if build.repo.Some? {
      return Err(build.repo.value);
    }
    if build.store.Some? {
      return Err(build.store.value);
    }
    var poBase := new BaseAgent(crew.po, llm, vcs, db);
    var po := new ProductOwnerAgent(poBase, crew.poDecode);
    var devBase := new BaseAgent(crew.dev, llm, vcs, db);
    var dev := new DeveloperAgent(devBase, crew.devDecode);
    r := Ok((po, dev));
  }

  /** The two agents of an orchestrator work on the same collaborators. */
  predicate Shared(o: IssueWorkflowOrchestrator) {
    o.po.base.llm == o.dev.base.llm && o.po.base.vcs == o.dev.base.vcs && o.po.base.db == o.dev.base.db
  }

  function CrewOf(o: IssueWorkflowOrchestrator): Crew {
    Crew(o.po.base.persona, o.po.decode, o.dev.base.persona, o.dev.decode)
  }

  method HandleIssuesEvent(p: Payload, o: IssueWorkflowOrchestrator) returns (resp: Response)
    requires Shared(o)
    modifies o.po.base.llm, o.po.base.vcs, o.po.base.db
    ensures Delivery(o.po.base.Snapshot(), resp) == IssuesEvent(o.po.base.Environment(), CrewOf(o), old(o.po.base.Snapshot()), p)
  {
    if p.action == Some("opened") {
      var state := o.HandleNewIssue(p.issueNumber, p.issueId, p.issueTitle, p.issueBody, p.repoFullName);
      if state.Err? {
        return ServerError(ErrorText(state.error));
      }
      return Response(200, map["status" := VStr("success"), "message" := VStr("Issue analyzed"),
                               "conversation_status" := VStr(state.value.status)]);
    } else if p.action == Some("labeled") {
      var result := o.HandleLabelAdded(p.issueNumber, LabelText(p.labelName), p.repoFullName);
      if result.Err? {
        return ServerError(ErrorText(result.error));
      }
      if result.value.None? {
        return Reply("ignored", "Label not a trigger");
      }
      var r := result.value.value;
      return Response(200, map["status" := VStr("success"), "message" := VStr("Development triggered"),
                               "pr_created" := VBool(r.prNumber.Some?), "pr_number" := OptionalInt(r.prNumber)]);
    }
    resp := NotHandled("Action", p.action);
  }

  method HandleIssueCommentEvent(p: Payload, o: IssueWorkflowOrchestrator) returns (resp: Response)
    modifies o.po.base.llm, o.po.base.vcs, o.po.base.db
    ensures Delivery(o.po.base.Snapshot(), resp) == CommentEvent(o.po.base.Environment(), CrewOf(o), old(o.po.base.Snapshot()), p)
  {
    if p.commentUserType == Some("Bot") {
      return Reply("ignored", "Bot comment");
    }
    if p.action == Some("created") {
      var state := o.HandleIssueComment(p.issueNumber, p.commentBody, p.repoFullName);
      if state.Err? {
        return ServerError(ErrorText(state.error));
      }
      if state.value.None? {
        return Reply("ignored", "No active conversation");
      }
      return Response(200, map["status" := VStr("success"), "message" := VStr("Comment processed"),
                               "conversation_status" := VStr(state.value.value.status)]);
    }
    resp := NotHandled("Action", p.action);
  }

  method HandlePullRequestEvent(p: Payload, o: IssueWorkflowOrchestrator) returns (resp: Response)
    modifies o.po.base.db
    ensures Delivery(o.po.base.Snapshot(), resp) == PullRequestEvent(o.po.base.Environment(), old(o.po.base.Snapshot()), p)
  {
    if p.prBody.None? {
      return ServerError(NotIterableError);
    }
    var issue := LinkedIssue(p.prBody.value);
    if p.action == Some("opened") {
      var done := o.HandlePrOpened(p.prNumber, issue, p.repoFullName);
      if done.Err? {
        return ServerError(ErrorText(done.error));
      }
      return Reply("success", "PR event processed");
    }
    resp := NotHandled("Action", p.action);
  }

  /** `github_webhook` on the given collaborators. */
  method GithubWebhook(g: Gateway, crew: Crew, llm: Llm, vcs: Repo, db: Client, req: Request) returns (resp: Response)
    modifies llm, vcs, db
    ensures Delivery(WorldOf(llm, vcs, db), resp) == WebhookDelivery(g, EnvOf(llm, vcs, db), crew, old(WorldOf(llm, vcs, db)), req)
  {
    var valid := VerifySignature(g.sign, g.secret, req.body, req.signature);
    if valid.Err? {
      return ServerError(valid.error);
    }
    if !valid.value {
      return Unauthorized;
    }
    var payload := g.decode(req.body);
    if payload.None? {
      return ServerError(InvalidJsonError);
    }
    var agents := CreateAgents(crew, g.build, llm, vcs, db);
    if agents.Err? {
      return ServerError(agents.error);
    }
    var (po, dev) := agents.value;
    var o := CreateWorkflowOrchestrator(po, dev);
    var p := payload.value;
    if req.event == Some("issues") {
      resp := HandleIssuesEvent(p, o);
    } else if req.event == Some("issue_comment") {
      resp := HandleIssueCommentEvent(p, o);
    } else if req.event == Some("pull_request") {
      resp := HandlePullRequestEvent(p, o);
    } else if req.event == Some("ping") {
      resp := Reply("success", "Pong!");
    } else {
      resp := NotHandled("Event type", req.event);
    }
  }
}

/**
  The two child instances' gateways: the test-child e-commerce instance
  and the child template. They check the signature and build both agents
  as the main gateway does, but route only opened issues and pings; every
  other action on an issue falls through the handler, which then answers
  nothing (a JSON null). The test-child instance tags its answers with
  its instance name.
*/
module ChildWebhooks {
  import opened Wrappers
  import opened Text
  import opened Store
  import opened AgentBase
  import opened ProductOwner
  import opened Orchestrator
  import opened Webhooks

  datatype Instance = TestChild | Template

  const TestChildTag := "test-child-ecommerce"

  function OpenedMessage(inst: Instance): string {
    if inst == TestChild then "Issue analyzed with e-commerce context" else "Issue analyzed with domain context"
  }

  function PongMessage(inst: Instance): string {
    if inst == TestChild then "Pong from test-child e-commerce instance!" else "Pong!"
  }

  /** The test-child instance adds its tag to every answer it builds itself. */
  function Tagged(inst: Instance, r: Response): Response {
    if inst == TestChild then r.(content := r.content["instance" := VStr(TestChildTag)]) else r
  }

  /** The template's check: one combined guard for a missing, empty or unprefixed header. */
  function TemplateVerifySignature(sign: Signer, secret: string, body: seq<bv8>, header: Option<string>): (r: Result<bool, string>)
    ensures header.None? || !StartsWith(header.value, SignaturePrefix) ==> r == Ok(false)
  {
    if header.None? || header.value == "" || !StartsWith(header.value, SignaturePrefix) then Ok(false)
    else
      var expected := NamedDigest(header.value);
      var computed := sign(secret, body);
      if !IsAscii(computed) || !IsAscii(expected) then Err(NonAsciiError)
      else Ok(computed == expected)
  }

  /** The combined guard decides exactly as the main gateway's two guards. */
  lemma TemplateSignatureAgrees(sign: Signer, secret: string, body: seq<bv8>, header: Option<string>)
    ensures TemplateVerifySignature(sign, secret, body, header) == VerifySignature(sign, secret, body, header)
  {
  }

  /** The test-child instance checks signatures with the main gateway's function. */
  function ChildVerify(inst: Instance, sign: Signer, secret: string, body: seq<bv8>, header: Option<string>): Result<bool, string> {
    if inst == TestChild then VerifySignature(sign, secret, body, header)
    else TemplateVerifySignature(sign, secret, body, header)
  }

  function ChildRoute(inst: Instance, env: Env, crew: Crew, w: World, event: Option<string>, p: Payload): Delivery<Option<Response>> {
    if event == Some("issues") then
      if p.action == Some("opened") then
        var e := WorkflowEffect(env, crew.po, crew.poDecode, w, p.issueNumber, p.issueId, p.issueTitle, p.issueBody,
                                p.repoFullName);
        if e.result.Err? then Delivery(e.world, Some(Tagged(inst, ServerError(ErrorText(e.result.error)))))
        else Delivery(e.world, Some(Tagged(inst, Response(200, map["status" := VStr("success"),
                                                                   "message" := VStr(OpenedMessage(inst)),
                                                                   "conversation_status" := VStr(e.result.value.status)]))))
      else Delivery(w, None)
    else if event == Some("ping") then Delivery(w, Some(Tagged(inst, Reply("success", PongMessage(inst)))))
    else Delivery(w, Some(Tagged(inst, NotHandled("Event type", event))))
  }

  /** `github_webhook` of a child instance. */
  function ChildDelivery(inst: Instance, g: Gateway, env: Env, crew: Crew, w: World, req: Request): Delivery<Option<Response>> {
    match ChildVerify(inst, g.sign, g.secret, req.body, req.signature)
    case Err(e) => Delivery(w, Some(Tagged(inst, ServerError(e))))
    case Ok(valid) =>
      if !valid then Delivery(w, Some(Unauthorized))
      else match g.decode(req.body)
        case None => Delivery(w, Some(Tagged(inst, ServerError(InvalidJsonError))))
        case Some(p) =>
          match BuildError(g.build)
          case Some(e) => Delivery(w, Some(Tagged(inst, ServerError(e))))
          case None => ChildRoute(inst, env, crew, w, req.event, p)
  }

  /**
    When building the agents fails, a child answers a signed, readable
    delivery with that error, tagged as the instance tags, whatever its
    event, and changes nothing.
  */
  lemma ChildBuildFailureAnswers(inst: Instance, g: Gateway, env: Env, crew: Crew, w: World, req: Request)
    requires ChildVerify(inst, g.sign, g.secret, req.body, req.signature) == Ok(true) && g.decode(req.body).Some?
    requires BuildError(g.build).Some?
    ensures var d := ChildDelivery(inst, g, env, crew, w, req);
      && d.world == w && d.response.Some?
      && d.response.value.code == 500 && d.response.value.content["message"] == VStr(BuildError(g.build).value)
      && TaggedFor(inst, d.response.value)
  {
  }

  /** A bad signature is answered 401, untagged, before anything else; a 401 means a bad signature. */
  lemma ChildRejectsBadSignature(inst: Instance, g: Gateway, env: Env, crew: Crew, w: World, req: Request)
    ensures var d := ChildDelivery(inst, g, env, crew, w, req);
      && (VerifySignature(g.sign, g.secret, req.body, req.signature) == Ok(false) ==> d == Delivery(w, Some(Unauthorized)))
      && (d.response.Some? && d.response.value.code == 401 ==>
            VerifySignature(g.sign, g.secret, req.body, req.signature) == Ok(false))
  {
    TemplateSignatureAgrees(g.sign, g.secret, req.body, req.signature);
  }

  /**
    Only an opened issue reaches an agent: any other issue action answers
    nothing, and every other event leaves the world as it was.
  */
  lemma ChildRoutesOnlyOpenedIssues(inst: Instance, env: Env, crew: Crew, w: World, event: Option<string>, p: Payload)
    ensures var d := ChildRoute(inst, env, crew, w, event, p);
      && (event == Some("issues") && p.action != Some("opened") ==> d == Delivery(w, None))
      && (event != Some("issues") ==> d.world == w && d.response.Some? && d.response.value.code == 200)
      && (d.response.None? <==> event == Some("issues") && p.action != Some("opened"))
  {
  }

  /** The test-child instance tags every answer but the 401; the template tags none. */
  lemma ChildTags(inst: Instance, g: Gateway, env: Env, crew: Crew, w: World, req: Request)
    ensures var d := ChildDelivery(inst, g, env, crew, w, req);
      d.response.Some? ==>
        && (inst == Template ==> "instance" !in d.response.value.content)
        && (inst == TestChild && d.response.value.code != 401 ==>
              "instance" in d.response.value.content && d.response.value.content["instance"] == VStr(TestChildTag))
  {
    var v := ChildVerify(inst, g.sign, g.secret, req.body, req.signature);
    if v == Ok(true) && g.decode(req.body).Some? && BuildError(g.build).None? {
      ChildRouteTags(inst, env, crew, w, req.event, g.decode(req.body).value);
    }
  }

  /** Whether an answer carries the instance tag exactly as the instance requires. */
  predicate TaggedFor(inst: Instance, r: Response) {
    && (inst == Template ==> "instance" !in r.content)
    && (inst == TestChild ==> "instance" in r.content && r.content["instance"] == VStr(TestChildTag))
  }

  lemma ChildRouteTags(inst: Instance, env: Env, crew: Crew, w: World, event: Option<string>, p: Payload)
    ensures var d := ChildRoute(inst, env, crew, w, event, p);
      d.response.Some? ==> TaggedFor(inst, d.response.value) && d.response.value.code != 401
  {
  }

  /**
    On every event a child routes, it changes the world exactly as the main
    gateway does: the same signature decision, the same workflow for an
    opened issue, nothing for a ping or an unknown event.
  */
  lemma ChildActsAsMain(inst: Instance, g: Gateway, env: Env, crew: Crew, w: World, req: Request)
    requires req.event != Some("issue_comment") && req.event != Some("pull_request")
    requires req.event == Some("issues") ==>
      forall p :: g.decode(req.body) == Some(p) ==> p.action != Some("labeled")
    ensures ChildDelivery(inst, g, env, crew, w, req).world == WebhookDelivery(g, env, crew, w, req).world
  {
    TemplateSignatureAgrees(g.sign, g.secret, req.body, req.signature);
    var v := VerifySignature(g.sign, g.secret, req.body, req.signature);
    assert ChildVerify(inst, g.sign, g.secret, req.body, req.signature) == v;
    if v == Ok(true) && g.decode(req.body).Some? && BuildError(g.build).None? {
      var p := g.decode(req.body).value;
      assert WebhookDelivery(g, env, crew, w, req) == Route(env, crew, w, req.event, p);
      assert ChildDelivery(inst, g, env, crew, w, req) == ChildRoute(inst, env, crew, w, req.event, p);
      if req.event == Some("issues") {
        assert p.action != Some("labeled");
        assert Route(env, crew, w, req.event, p) == IssuesEvent(env, crew, w, p);
      }
    }
  }

  /** `github_webhook` of a child instance on the given collaborators. */
  method ChildWebhook(inst: Instance, g: Gateway, crew: Crew, llm: Llm, vcs: Vcs.Repo, db: Client, req: Request)
    returns (resp: Option<Response>)
    modifies llm, vcs, db
    ensures Delivery(WorldOf(llm, vcs, db), resp) == ChildDelivery(inst, g, EnvOf(llm, vcs, db), crew, old(WorldOf(llm, vcs, db)), req)
  {
    var valid := ChildVerify(inst, g.sign, g.secret, req.body, req.signature);
    if valid.Err? {
      return Some(Tagged(inst, ServerError(valid.error)));
    }
    if !valid.value {
      return Some(Unauthorized);
    }
    var payload := g.decode(req.body);
    if payload.None? {
      return Some(Tagged(inst, ServerError(InvalidJsonError)));
    }
    var agents := CreateAgents(crew, g.build, llm, vcs, db);
    if agents.Err? {
      return Some(Tagged(inst, ServerError(agents.error)));
    }
    var (po, dev) := agents.value;
    var o := CreateWorkflowOrchestrator(po, dev);
    var p := payload.value;
    if req.event == Some("issues") {
      resp := None;
      if p.action == Some("opened") {
        var state := o.HandleNewIssue(p.issueNumber, p.issueId, p.issueTitle, p.issueBody, p.repoFullName);
        if state.Err? {
          return Some(Tagged(inst, ServerError(ErrorText(state.error))));
        }
        resp := Some(Tagged(inst, Response(200, map["status" := VStr("success"), "message" := VStr(OpenedMessage(inst)),
                                                   "conversation_status" := VStr(state.value.status)])));
      }
    } else if req.event == Some("ping") {
      resp := Some(Tagged(inst, Reply("success", PongMessage(inst))));
    } else {
      resp := Some(Tagged(inst, NotHandled("Event type", req.event)));
    }
  }
}
