/**
  The GitHub client: the rules it adds on top of the hosting service's API.

  The repository is the state the service keeps (issue labels, pull
  requests, branches with their files) plus the list of write requests
  the client has sent. What the service decides by itself is a `Service`
  value: the issues that exist, the failures it answers to a request
  (`fault`, given the request and the number of write requests sent
  before it, so that a failure can be transient), the directory
  listings it returns, and the metadata of a file. Every operation has a pure specification over `RepoState`; the
  `Repo` class performs it step by step and is proved to match.
*/
module Vcs {
  import opened Wrappers
  import opened Text

  /** A `GithubException` (an HTTP status) or another exception raised on the way. */
  datatype VcsError = HttpError(status: int, message: string) | AttributeError(message: string)

  const NotFound := 404
  const Unprocessable := 422
  const NotFoundError := HttpError(NotFound, "Not Found")
  const ValidationFailed := HttpError(Unprocessable, "Validation Failed")

  predicate IsNotFound(e: VcsError) {
    e.HttpError? && e.status == NotFound
  }

  /** The requests the client sends; the first four only read. */
  datatype Request =
    | GetIssue(issue: int)
    | GetPull(pr: int)
    | GetRef(branch: string)
    | GetContents(path: string, branch: string)
    | CommentOnIssue(issue: int, body: string)
    | AddLabels(issue: int, labels: seq<string>)
    | RemoveLabel(issue: int, labelName: string)
    | CreatePull(title: string, body: string, head: string, base: string)
    | EditPullBody(pr: int, body: string)
    | CreateRef(branch: string, from: string)
    | UpdateFile(path: string, content: string, message: string, branch: string)
    | CreateFile(path: string, content: string, message: string, branch: string)

  predicate IsWrite(req: Request) {
    !(req.GetIssue? || req.GetPull? || req.GetRef? || req.GetContents?)
  }

  predicate IsFileWrite(req: Request) {
    req.UpdateFile? || req.CreateFile?
  }

  datatype PullRequest = PullRequest(title: string, body: Option<string>, head: string, base: string)

  /** One entry of a contents listing: name, path, type, size and sha. */
  datatype ContentItem = ContentItem(name: string, path: string, kind: string, size: int, sha: string)

  datatype Contents = FileContents(item: ContentItem, text: string) | Listing(items: seq<ContentItem>)

  datatype Service = Service(
    issues: set<int>,
    fault: (Request, nat) -> Option<VcsError>,
    listing: (string, string) -> Option<seq<ContentItem>>,
    describe: (string, string) -> ContentItem
  )

  datatype RepoState = RepoState(
    labels: map<int, set<string>>,
    pulls: map<int, PullRequest>,
    nextNumber: int,
    branches: map<string, map<string, string>>,
    sent: seq<Request>
  )

  datatype Step<T> = Step(state: RepoState, result: T)

  function LabelsOf(s: RepoState, issue: int): set<string> {
    if issue in s.labels then s.labels[issue] else {}
  }

  predicate IsFile(s: RepoState, path: string, branch: string) {
    branch in s.branches && path in s.branches[branch]
  }

  /** The error the service answers to `req` in state `s`, if any. */
  function Refusal(svc: Service, s: RepoState, req: Request): Option<VcsError> {
    if svc.fault(req, |s.sent|).Some? then svc.fault(req, |s.sent|)
    else match req
      case GetIssue(n) => if n in svc.issues then None else Some(NotFoundError)
      case CommentOnIssue(n, _) => if n in svc.issues then None else Some(NotFoundError)
      case AddLabels(n, _) => if n in svc.issues then None else Some(NotFoundError)
      case RemoveLabel(n, l) => if n in svc.issues && l in LabelsOf(s, n) then None else Some(NotFoundError)
      case GetPull(n) => if n in s.pulls then None else Some(NotFoundError)
      case EditPullBody(n, _) => if n in s.pulls then None else Some(NotFoundError)
      case CreatePull(_, _, head, base) =>
        if head in s.branches && base in s.branches then None else Some(ValidationFailed)
      case GetRef(b) => if b in s.branches then None else Some(NotFoundError)
      case CreateRef(b, from) => if b !in s.branches && from in s.branches then None else Some(ValidationFailed)
      case GetContents(path, b) =>
        if b in s.branches && (path in s.branches[b] || svc.listing(b, path).Some?) then None else Some(NotFoundError)
      case UpdateFile(path, _, _, b) => if IsFile(s, path, b) then None else Some(NotFoundError)
      case CreateFile(path, _, _, b) =>
        if b !in s.branches then Some(NotFoundError)
        else if path in s.branches[b] then Some(ValidationFailed)
        else None
  }

  /** The effect of an accepted write request. */
  function Apply(s: RepoState, req: Request): (r: RepoState)
    ensures r.sent == s.sent
  {
    match req
    case AddLabels(n, ls) => s.(labels := s.labels[n := LabelsOf(s, n) + (set l | l in ls)])
    case RemoveLabel(n, l) => s.(labels := s.labels[n := LabelsOf(s, n) - {l}])
    case CreatePull(t, b, h, base) =>
      s.(pulls := s.pulls[s.nextNumber := PullRequest(t, Some(b), h, base)], nextNumber := s.nextNumber + 1)
    case EditPullBody(n, b) => if n in s.pulls then s.(pulls := s.pulls[n := s.pulls[n].(body := Some(b))]) else s
    case CreateRef(b, from) => if from in s.branches then s.(branches := s.branches[b := s.branches[from]]) else s
    case UpdateFile(p, c, _, b) => if b in s.branches then s.(branches := s.branches[b := s.branches[b][p := c]]) else s
    case CreateFile(p, c, _, b) => if b in s.branches then s.(branches := s.branches[b := s.branches[b][p := c]]) else s
    case _ => s
  }

  /**
    Sending a write request: it is always recorded, and it changes the
    repository exactly when the service accepts it.
  */
  function Send(svc: Service, s: RepoState, req: Request): (r: Step<Outcome<VcsError>>)
    ensures r.state.sent == s.sent + [req]
    ensures r.result.Fail? <==> Refusal(svc, s, req).Some?
    ensures r.result.Fail? ==> r.state == s.(sent := s.sent + [req]) && r.result.error == Refusal(svc, s, req).value
  {
    var logged := s.(sent := s.sent + [req]);
    match Refusal(svc, s, req)
    case Some(e) => Step(logged, Fail(e))
    case None => Step(Apply(logged, req), Pass)
  }

  /** `create_issue_comment`: look the issue up, then post. */
  function CommentStep(svc: Service, s: RepoState, issue: int, body: string): Step<Outcome<VcsError>> {
    match Refusal(svc, s, GetIssue(issue))
    case Some(e) => Step(s, Fail(e))
    case None => Send(svc, s, CommentOnIssue(issue, body))
  }

  /** `add_labels_to_issue`: look the issue up, then add all labels in one request. */
  function AddLabelsStep(svc: Service, s: RepoState, issue: int, labels: seq<string>): Step<Outcome<VcsError>> {
    match Refusal(svc, s, GetIssue(issue))
    case Some(e) => Step(s, Fail(e))
    case None => Send(svc, s, AddLabels(issue, labels))
  }

  /** One removal request per label, in order, whatever each answer is. */
  function RemoveEach(svc: Service, s: RepoState, issue: int, labels: seq<string>): RepoState
    decreases |labels|
  {
    if |labels| == 0 then s
    else Send(svc, RemoveEach(svc, s, issue, labels[..|labels| - 1]), RemoveLabel(issue, labels[|labels| - 1])).state
  }

  /** `remove_labels_from_issue`: only the issue lookup can fail. */
  function RemoveLabelsStep(svc: Service, s: RepoState, issue: int, labels: seq<string>): Step<Outcome<VcsError>> {
    match Refusal(svc, s, GetIssue(issue))
    case Some(e) => Step(s, Fail(e))
    case None => Step(RemoveEach(svc, s, issue, labels), Pass)
  }

  function RemoveRequests(issue: int, labels: seq<string>): seq<Request> {
    seq(|labels|, k requires 0 <= k < |labels| => RemoveLabel(issue, labels[k]))
  }

  /** Every label is attempted, in order, even after earlier removals failed. */
  lemma {:induction false} RemoveEachSendsAll(svc: Service, s: RepoState, issue: int, labels: seq<string>)
    ensures RemoveEach(svc, s, issue, labels).sent == s.sent + RemoveRequests(issue, labels)
    decreases |labels|
  {
    if |labels| > 0 {
      var init := labels[..|labels| - 1];
      RemoveEachSendsAll(svc, s, issue, init);
      assert RemoveRequests(issue, labels) == RemoveRequests(issue, init) + [RemoveLabel(issue, labels[|labels| - 1])];
    }
  }

  /**
    After the removals, no label whose removal the service did not refuse
    is left, nothing was added, and labels outside the list stay.
  */
  lemma {:induction false} RemoveEachLabels(svc: Service, s: RepoState, issue: int, labels: seq<string>)
    requires issue in svc.issues
    ensures LabelsOf(RemoveEach(svc, s, issue, labels), issue) <= LabelsOf(s, issue)
    ensures forall l :: l in LabelsOf(s, issue) && l !in labels ==> l in LabelsOf(RemoveEach(svc, s, issue, labels), issue)
    ensures forall k :: 0 <= k < |labels| && svc.fault(RemoveLabel(issue, labels[k]), |s.sent| + k).None? ==>
      labels[k] !in LabelsOf(RemoveEach(svc, s, issue, labels), issue)
    decreases |labels|
  {
    if |labels| > 0 {
      var init := labels[..|labels| - 1];
      var last := |labels| - 1;
      RemoveEachLabels(svc, s, issue, init);
      RemoveEachSendsAll(svc, s, issue, init);
      assert |RemoveEach(svc, s, issue, init).sent| == |s.sent| + last;
      forall k | 0 <= k < |labels| && svc.fault(RemoveLabel(issue, labels[k]), |s.sent| + k).None?
        ensures labels[k] !in LabelsOf(RemoveEach(svc, s, issue, labels), issue)
      {
        if k < last {
          assert init[k] == labels[k];
        }
      }
    }
  }

  /** The removals touch only the labels of that one issue. */
  lemma {:induction false} RemoveEachFrame(svc: Service, s: RepoState, issue: int, labels: seq<string>)
    ensures var r := RemoveEach(svc, s, issue, labels);
      r.pulls == s.pulls && r.branches == s.branches && r.nextNumber == s.nextNumber
      && forall other :: other != issue ==> LabelsOf(r, other) == LabelsOf(s, other)
    decreases |labels|
  {
    if |labels| > 0 {
      RemoveEachFrame(svc, s, issue, labels[..|labels| - 1]);
    }
  }

  /** The removal of labels from an issue reports success whenever the issue exists. */
  lemma RemoveLabelsTolerant(svc: Service, s: RepoState, issue: int, labels: seq<string>)
    ensures RemoveLabelsStep(svc, s, issue, labels).result.Pass? <==> Refusal(svc, s, GetIssue(issue)).None?
    ensures RemoveLabelsStep(svc, s, issue, labels).result.Pass? ==>
      RemoveLabelsStep(svc, s, issue, labels).state.sent == s.sent + RemoveRequests(issue, labels)
  {
    if Refusal(svc, s, GetIssue(issue)).None? {
      RemoveEachSendsAll(svc, s, issue, labels);
    }
  }

  /** `create_pull_request`: the number of the new pull request. */
  function CreatePullStep(svc: Service, s: RepoState, title: string, body: string, head: string, base: string)
    : (r: Step<Result<int, VcsError>>)
    ensures r.state.sent == s.sent + [CreatePull(title, body, head, base)]
    ensures r.result.Ok? ==> (r.result.value == s.nextNumber && r.result.value in r.state.pulls
      && r.state.pulls[r.result.value] == PullRequest(title, Some(body), head, base))
  {
    var step := Send(svc, s, CreatePull(title, body, head, base));
    match step.result
    case Fail(e) => Step(step.state, Err(e))
    case Pass => Step(step.state, Ok(s.nextNumber))
  }

  function ClosesText(issue: int): string {
    "Closes #" + IntToString(issue)
  }

  /** The body `link_issue_to_pr` leaves: unchanged when it already mentions the issue. */
  function LinkedBody(body: string, issue: int): string {
    if Contains(body, ClosesText(issue)) then body else body + "\n\n" + ClosesText(issue)
  }

  /** A linked body mentions the issue, and starts with the old body. */
  lemma LinkedBodyLinks(body: string, issue: int)
    ensures Contains(LinkedBody(body, issue), ClosesText(issue))
    ensures StartsWith(LinkedBody(body, issue), body)
  {
    var c := ClosesText(issue);
    if !Contains(body, c) {
      ContainsAt(c, c, 0);
      ContainsInRight(body + "\n\n", c, c);
      assert body + "\n\n" + c == (body + "\n\n") + c;
      assert LinkedBody(body, issue)[..|body|] == body;
    }
  }

  /** Linking twice is linking once. */
  lemma LinkedBodyIdempotent(body: string, issue: int)
    ensures LinkedBody(LinkedBody(body, issue), issue) == LinkedBody(body, issue)
  {
    LinkedBodyLinks(body, issue);
  }

  /**
    The test is a substring test: a body that links issue 42 counts as
    linking issue 4, and is left unchanged.
  */
  lemma LinkedBodyPrefixCollision()
    ensures LinkedBody("Closes #42", 4) == "Closes #42"
  {
    assert ClosesText(4) == "Closes #4";
    ContainsAt("Closes #42", "Closes #4", 0);
  }

  function BodyText(pr: PullRequest): string {
    if pr.body.Some? then pr.body.value else ""
  }

  /** `link_issue_to_pr`: fetch the pull request, edit its body only when the issue is not mentioned. */
  function LinkStep(svc: Service, s: RepoState, pr: int, issue: int): Step<Outcome<VcsError>> {
    match Refusal(svc, s, GetPull(pr))
    case Some(e) => Step(s, Fail(e))
    case None =>
      var body := BodyText(s.pulls[pr]);
      if Contains(body, ClosesText(issue)) then Step(s, Pass)
      else Send(svc, s, EditPullBody(pr, body + "\n\n" + ClosesText(issue)))
  }

  /** After a successful link the body is the linked body, and the edit was sent iff it was needed. */
  lemma LinkStepEdits(svc: Service, s: RepoState, pr: int, issue: int)
    ensures var r := LinkStep(svc, s, pr, issue);
      r.result.Pass? ==>
        && pr in s.pulls && pr in r.state.pulls
        && BodyText(r.state.pulls[pr]) == LinkedBody(BodyText(s.pulls[pr]), issue)
        && (r.state.sent == s.sent <==> Contains(BodyText(s.pulls[pr]), ClosesText(issue)))
  {
  }

  /**
    A second link of the same issue sends nothing and changes nothing; it
    succeeds unless the service fails the lookup of the pull request.
  */
  lemma LinkStepIdempotent(svc: Service, s: RepoState, pr: int, issue: int)
    requires LinkStep(svc, s, pr, issue).result.Pass?
    ensures var s1 := LinkStep(svc, s, pr, issue).state;
      && LinkStep(svc, s1, pr, issue).state == s1
      && (svc.fault(GetPull(pr), |s1.sent|).None? ==> LinkStep(svc, s1, pr, issue).result.Pass?)
  {
    LinkStepEdits(svc, s, pr, issue);
    LinkedBodyLinks(BodyText(s.pulls[pr]), issue);
  }

  /** `create_branch`: read the source branch, then create the new reference. */
  function CreateBranchStep(svc: Service, s: RepoState, branch: string, from: string): Step<Outcome<VcsError>> {
    match Refusal(svc, s, GetRef(from))
    case Some(e) => Step(s, Fail(e))
    case None => Send(svc, s, CreateRef(branch, from))
  }

  /** A created branch starts with the files of the branch it was made from. */
  lemma CreateBranchCopies(svc: Service, s: RepoState, branch: string, from: string)
    ensures var r := CreateBranchStep(svc, s, branch, from);
      r.result.Pass? ==> branch !in s.branches && from in s.branches && branch in r.state.branches
                         && r.state.branches[branch] == s.branches[from]
  {
  }

  /** `branch_exists`: true exactly when the reference lookup succeeds. */
  predicate BranchExists(svc: Service, s: RepoState, branch: string) {
    Refusal(svc, s, GetRef(branch)).None?
  }

  lemma BranchExistsIff(svc: Service, s: RepoState, branch: string)
    ensures BranchExists(svc, s, branch) <==> branch in s.branches && svc.fault(GetRef(branch), |s.sent|).None?
  {
  }

  /**
    `create_or_update_file`: update an existing file, create it when the
    lookup or the update itself is answered 404, and give up on any other
    answer. A directory answers the lookup with a list, which has no sha.
  */
  function WriteFileStep(svc: Service, s: RepoState, path: string, content: string, message: string, branch: string)
    : Step<Outcome<VcsError>>
  {
    match Refusal(svc, s, GetContents(path, branch))
    case None =>
      if path in s.branches[branch] then
        var updated := Send(svc, s, UpdateFile(path, content, message, branch));
        if updated.result.Fail? && IsNotFound(updated.result.error) then
          Send(svc, updated.state, CreateFile(path, content, message, branch))
        else updated
      else Step(s, Fail(AttributeError("'list' object has no attribute 'sha'")))
    case Some(e) =>
      if IsNotFound(e) then Send(svc, s, CreateFile(path, content, message, branch))
      else Step(s, Fail(e))
  }

  /**
    Which requests a file write sends: an update, followed by a creation
    when the update is answered 404; a creation alone when the lookup is
    answered 404; nothing on any other lookup error.
  */
  lemma WriteFileRequests(svc: Service, s: RepoState, path: string, content: string, message: string, branch: string)
    ensures var r := WriteFileStep(svc, s, path, content, message, branch);
      var lookup := Refusal(svc, s, GetContents(path, branch));
      var update := UpdateFile(path, content, message, branch);
      var create := CreateFile(path, content, message, branch);
      && (lookup.None? && IsFile(s, path, branch) ==>
            if Refusal(svc, s, update).Some? && IsNotFound(Refusal(svc, s, update).value)
            then r.state.sent == s.sent + [update, create]
            else r.state.sent == s.sent + [update])
      && (lookup.Some? && IsNotFound(lookup.value) ==> r.state.sent == s.sent + [create])
      && (lookup.Some? && !IsNotFound(lookup.value) ==> r == Step(s, Fail(lookup.value)))
  {
    var update := UpdateFile(path, content, message, branch);
    var create := CreateFile(path, content, message, branch);
    if Refusal(svc, s, GetContents(path, branch)).None? && IsFile(s, path, branch) {
      var updated := Send(svc, s, update);
      if updated.result.Fail? && IsNotFound(updated.result.error) {
        assert updated.state.sent + [create] == s.sent + [update, create];
      }
    }
  }

  /** A successful write leaves the content at the path and touches no other file. */
  lemma WriteFileStores(svc: Service, s: RepoState, path: string, content: string, message: string, branch: string)
    ensures var r := WriteFileStep(svc, s, path, content, message, branch);
      r.result.Pass? ==> branch in s.branches && r.state.branches == s.branches[branch := s.branches[branch][path := content]]
  {
  }

  /** Writes never remove a branch or a file. */
  lemma WriteFileKeepsFiles(svc: Service, s: RepoState, path: string, content: string, message: string, branch: string)
    ensures var r := WriteFileStep(svc, s, path, content, message, branch);
      forall b :: b in s.branches ==> b in r.state.branches && s.branches[b].Keys <= r.state.branches[b].Keys
  {
  }

  /** What `get_contents` returns for a path on a branch. */
  function ContentsAt(svc: Service, s: RepoState, path: string, branch: string): Result<Contents, VcsError> {
    match Refusal(svc, s, GetContents(path, branch))
    case Some(e) => Err(e)
    case None =>
      if path in s.branches[branch] then
        Ok(FileContents(svc.describe(path, s.branches[branch][path]), s.branches[branch][path]))
      else Ok(Listing(svc.listing(branch, path).value))
  }

  /** `get_file_content`: the text of a file; nothing for a directory or a 404; other errors propagate. */
  function FileContentAt(svc: Service, s: RepoState, path: string, branch: string): (r: Result<Option<string>, VcsError>)
    ensures r.Ok? && r.value.Some? <==> IsFile(s, path, branch) && svc.fault(GetContents(path, branch), |s.sent|).None?
    ensures r.Ok? && r.value.Some? ==> r.value.value == s.branches[branch][path]
    ensures r.Err? <==> Refusal(svc, s, GetContents(path, branch)).Some?
                        && !IsNotFound(Refusal(svc, s, GetContents(path, branch)).value)
  {
    match ContentsAt(svc, s, path, branch)
    case Err(e) => if IsNotFound(e) then Ok(None) else Err(e)
    case Ok(c) => if c.Listing? then Ok(None) else Ok(Some(c.text))
  }

  /** The items `get_repository_structure` lists: a single file is wrapped in a list. */
  function ItemsOf(c: Contents): (items: seq<ContentItem>)
    ensures c.FileContents? ==> items == [c.item]
    ensures c.Listing? ==> items == c.items
  {
    match c
    case FileContents(item, _) => [item]
    case Listing(items) => items
  }

  class Repo {
    const name: string
    const service: Service
    var labels: map<int, set<string>>
    var pulls: map<int, PullRequest>
    var nextNumber: int
    var branches: map<string, map<string, string>>
    var sent: seq<Request>

    function Snapshot(): RepoState
      reads this
    {
      RepoState(labels, pulls, nextNumber, branches, sent)
    }

    constructor (name: string, service: Service, initial: RepoState)
      ensures this.name == name && this.service == service && Snapshot() == initial
    {
      this.name := name;
      this.service := service;
      labels := initial.labels;
      pulls := initial.pulls;
      nextNumber := initial.nextNumber;
      branches := initial.branches;
      sent := initial.sent;
    }

    /** Sends one write request and applies it when the service accepts it. */
    method Submit(req: Request) returns (r: Outcome<VcsError>)
      modifies this
      ensures Step(Snapshot(), r) == Send(service, old(Snapshot()), req)
    {
      var refusal := Refusal(service, Snapshot(), req);
      var before := Snapshot();
      sent := sent + [req];
      if refusal.Some? {
        return Fail(refusal.value);
      }
      match req {
        case AddLabels(n, ls) =>
          labels := labels[n := LabelsOf(before, n) + (set l | l in ls)];
        case RemoveLabel(n, l) =>
          labels := labels[n := LabelsOf(before, n) - {l}];
        case CreatePull(t, b, h, base) =>
          pulls := pulls[nextNumber := PullRequest(t, Some(b), h, base)];
          nextNumber := nextNumber + 1;
        case EditPullBody(n, b) =>
          if n in pulls {
            pulls := pulls[n := pulls[n].(body := Some(b))];
          }
        case CreateRef(b, from) =>
          if from in branches {
            branches := branches[b := branches[from]];
          }
        case UpdateFile(p, c, _, b) =>
          if b in branches {
            branches := branches[b := branches[b][p := c]];
          }
        case CreateFile(p, c, _, b) =>
          if b in branches {
            branches := branches[b := branches[b][p := c]];
          }
        case _ =>
      }
      r := Pass;
    }

    method CreateIssueComment(issue: int, body: string) returns (r: Outcome<VcsError>)
      modifies this
      ensures Step(Snapshot(), r) == CommentStep(service, old(Snapshot()), issue, body)
    {
      var lookup := Refusal(service, Snapshot(), GetIssue(issue));
      if lookup.Some? {
        return Fail(lookup.value);
      }
      r := Submit(CommentOnIssue(issue, body));
    }

    method AddLabelsToIssue(issue: int, labels: seq<string>) returns (r: Outcome<VcsError>)
      modifies this
      ensures Step(Snapshot(), r) == AddLabelsStep(service, old(Snapshot()), issue, labels)
    {
      var lookup := Refusal(service, Snapshot(), GetIssue(issue));
      if lookup.Some? {
        return Fail(lookup.value);
      }
      r := Submit(AddLabels(issue, labels));
    }

    /** Removes the labels one by one; a failure on one label does not stop the others. */
    method RemoveLabelsFromIssue(issue: int, labels: seq<string>) returns (r: Outcome<VcsError>)
      modifies this
      ensures Step(Snapshot(), r) == RemoveLabelsStep(service, old(Snapshot()), issue, labels)
    {
      var lookup := Refusal(service, Snapshot(), GetIssue(issue));
      if lookup.Some? {
        return Fail(lookup.value);
      }
      var i := 0;
      while i < |labels|
        invariant 0 <= i <= |labels|
        invariant Snapshot() == RemoveEach(service, old(Snapshot()), issue, labels[..i])
      {
        var ignored := Submit(RemoveLabel(issue, labels[i]));
        assert labels[..i + 1][..i] == labels[..i];
        i := i + 1;
      }
      assert labels[..|labels|] == labels;
      r := Pass;
    }

    method CreatePullRequest(title: string, body: string, head: string, base: string)
      returns (r: Result<int, VcsError>)
      modifies this
      ensures Step(Snapshot(), r) == CreatePullStep(service, old(Snapshot()), title, body, head, base)
    {
      var number := nextNumber;
      var sentResult := Submit(CreatePull(title, body, head, base));
      if sentResult.Fail? {
        return Err(sentResult.error);
      }
      r := Ok(number);
    }

    method LinkIssueToPr(pr: int, issue: int) returns (r: Outcome<VcsError>)
      modifies this
      ensures Step(Snapshot(), r) == LinkStep(service, old(Snapshot()), pr, issue)
    {
      var lookup := Refusal(service, Snapshot(), GetPull(pr));
      if lookup.Some? {
        return Fail(lookup.value);
      }
      var currentBody := BodyText(pulls[pr]);
      var closesText := ClosesText(issue);
      if Contains(currentBody, closesText) {
        return Pass;
      }
      r := Submit(EditPullBody(pr, currentBody + "\n\n" + closesText));
    }

    method CreateBranch(branch: string, from: string) returns (r: Outcome<VcsError>)
      modifies this
      ensures Step(Snapshot(), r) == CreateBranchStep(service, old(Snapshot()), branch, from)
    {
      var lookup := Refusal(service, Snapshot(), GetRef(from));
      if lookup.Some? {
        return Fail(lookup.value);
      }
      r := Submit(CreateRef(branch, from));
    }

    method IsBranch(branch: string) returns (r: bool)
      ensures r <==> branch in branches && service.fault(GetRef(branch), |sent|).None?
      ensures r == BranchExists(service, Snapshot(), branch)
    {
      r := Refusal(service, Snapshot(), GetRef(branch)).None?;
    }

    method CreateOrUpdateFile(path: string, content: string, message: string, branch: string)
      returns (r: Outcome<VcsError>)
      modifies this
      ensures Step(Snapshot(), r) == WriteFileStep(service, old(Snapshot()), path, content, message, branch)
    {
      var lookup := Refusal(service, Snapshot(), GetContents(path, branch));
      if lookup.None? {
        if path in branches[branch] {
          r := Submit(UpdateFile(path, content, message, branch));
          if r.Fail? && IsNotFound(r.error) {
            r := Submit(CreateFile(path, content, message, branch));
          }
        } else {
          r := Fail(AttributeError("'list' object has no attribute 'sha'"));
        }
      } else if IsNotFound(lookup.value) {
        r := Submit(CreateFile(path, content, message, branch));
      } else {
        r := Fail(lookup.value);
      }
    }

    method GetFileContent(path: string, branch: string) returns (r: Result<Option<string>, VcsError>)
      ensures r == FileContentAt(service, Snapshot(), path, branch)
      ensures r.Ok? && r.value.Some? ==> (branch in branches && path in branches[branch]
                                         && r.value.value == branches[branch][path])
    {
      var contents := ContentsAt(service, Snapshot(), path, branch);
      if contents.Err? {
        if IsNotFound(contents.error) {
          return Ok(None);
        }
        return Err(contents.error);
      }
      if contents.value.Listing? {
        return Ok(None);
      }
      r := Ok(Some(contents.value.text));
    }

    /** Lists the items at a path, one entry per item in the order the service gives them. */
    method GetRepositoryStructure(path: string, branch: string) returns (r: Result<seq<ContentItem>, VcsError>)
      ensures ContentsAt(service, Snapshot(), path, branch).Err? ==> r == Err(ContentsAt(service, Snapshot(), path, branch).error)
      ensures ContentsAt(service, Snapshot(), path, branch).Ok? ==> r == Ok(ItemsOf(ContentsAt(service, Snapshot(), path, branch).value))
    {
      var contents := ContentsAt(service, Snapshot(), path, branch);
      if contents.Err? {
        return Err(contents.error);
      }
      var items := if contents.value.FileContents? then [contents.value.item] else contents.value.items;
      var structure: seq<ContentItem> := [];
      var i := 0;
      while i < |items|
        invariant 0 <= i <= |items|
        invariant structure == items[..i]
      {
        var item := items[i];
        structure := structure + [ContentItem(item.name, item.path, item.kind, item.size, item.sha)];
        i := i + 1;
      }
      assert items[..|items|] == items;
      r := Ok(structure);
    }
  }
}
