/**
  The developer agent: generates code for a refined issue, commits it on a
  branch, opens a pull request linked to the issue, and records the
  outcome.

  As for the product owner, a prompt is modelled by its data sections and
  the parser by a `GenerationDecoder` oracle followed by the model
  validation of `CodeGenerationModel`.
*/
module Developer {
  import opened Wrappers
  import opened Text
  import opened Vcs
  import opened Store
  import opened CodeGenerationModel
  import opened AgentBase

  const MaxRetries := 3
  /** The branch new branches start from and pull requests target. */
  const MainBranch := "main"

  type GenerationDecoder = string -> Option<RawCodeGeneration>

  function ParseGeneration(decode: GenerationDecoder, text: string): (r: Result<CodeGeneration, Failure>)
    ensures r.Ok? <==> decode(text).Some? && ValidateCodeGeneration(decode(text).value).Ok?
    ensures r.Ok? ==> r.value == ValidateCodeGeneration(decode(text).value).value
  {
    match decode(text)
    case None => Err(ParseFailed("Invalid json output"))
    case Some(raw) =>
      match ValidateCodeGeneration(raw)
      case Err(missing) => Err(ParseFailed("Failed to parse CodeGeneration: missing " + Join(missing, ", ")))
      case Ok(g) => Ok(g)
  }

  // ---------------------------------------------------------------
  // generate_code
  // ---------------------------------------------------------------

  /** `get_tech_stack_context` of the generic developer, in insertion order. */
  const TechStack: seq<(string, string)> := [("language", "python"), ("version", "3.10+"), ("testing", "pytest")]

  function TechStackText(): string {
    Join(seq(|TechStack|, k requires 0 <= k < |TechStack| => "- " + TechStack[k].0 + ": " + TechStack[k].1), "\n")
  }

  function RequirementsSection(requirements: string): string {
    "## Requirements\n" + requirements + "\n\n"
  }

  function CriteriaSection(criteria: seq<string>): string {
    "## Acceptance Criteria\n" + Join(NumberedItems(criteria, 1), "\n") + "\n\n"
  }

  function StackSection(): string {
    "## Tech Stack\n" + TechStackText() + "\n"
  }

  /** The codebase section is present only for a non-empty context. */
  function CodebaseSection(codebase: Option<string>): string {
    if codebase.Some? && |codebase.value| > 0 then "\n## Existing Codebase Context\n" + codebase.value + "\n" else ""
  }

  /** The data sections of the generation prompt. */
  function GenerationPrompt(requirements: string, criteria: seq<string>, codebase: Option<string>): string {
    RequirementsSection(requirements) + CriteriaSection(criteria) + StackSection() + CodebaseSection(codebase)
  }

  /**
    The prompt opens with the requirements and ends with the codebase
    context exactly when there is a non-empty one, else with the tech stack.
  */
  lemma GenerationPromptSections(requirements: string, criteria: seq<string>, codebase: Option<string>)
    ensures StartsWith(GenerationPrompt(requirements, criteria, codebase), RequirementsSection(requirements))
    ensures codebase.Some? && |codebase.value| > 0 ==>
      EndsWith(GenerationPrompt(requirements, criteria, codebase), "\n## Existing Codebase Context\n" + codebase.value + "\n")
    ensures codebase.None? || |codebase.value| == 0 ==>
      EndsWith(GenerationPrompt(requirements, criteria, codebase), StackSection())
  {
    var head := RequirementsSection(requirements);
    var middle := CriteriaSection(criteria);
    var stack := StackSection();
    var section := CodebaseSection(codebase);
    assert GenerationPrompt(requirements, criteria, codebase) == head + (middle + stack + section);
    StartsWithAppend(head, middle + stack + section);
    EndsWithAppend(head + middle + stack, section);
    if section == "" {
      assert head + middle + stack + section == head + middle + stack;
      EndsWithAppend(head + middle, stack);
    }
  }

  function GenerationPayload(issueNumber: int, g: CodeGeneration): map<string, Value> {
    map["issue_number" := VInt(issueNumber), "files_count" := VInt(|g.filesToCreate|),
        "tests_count" := VInt(|g.testFiles|), "branch_name" := VStr(g.branchName)]
  }

  /** `generate_code`: ask the backend, parse its answer, log the generation. */
  function GenerateEffect(env: Env, p: Persona, decode: GenerationDecoder, w: World, issueNumber: int,
                          requirements: string, criteria: seq<string>, codebase: Option<string>): Effect<CodeGeneration>
  {
    var called := InvokeEffect(env, w, Messages(p, GenerationPrompt(requirements, criteria, codebase), [], []), MaxRetries);
    if called.result.Err? then Effect(called.world, Err(called.result.error))
    else match ParseGeneration(decode, called.result.value)
      case Err(f) => Effect(called.world, Err(f))
      case Ok(g) =>
        var logged := LogEffect(env, p, called.world, None, "code_generated", GenerationPayload(issueNumber, g));
        if logged.result.Err? then Effect(logged.world, Err(logged.result.error)) else Effect(logged.world, Ok(g))
  }

  /**
    The generation returned is the parsed answer of the backend, logged
    once as "code_generated" with its file and test counts; the repository
    is not touched.
  */
  lemma GenerateLogsOnce(env: Env, p: Persona, decode: GenerationDecoder, w: World, issueNumber: int,
                         requirements: string, criteria: seq<string>, codebase: Option<string>)
    ensures var called := InvokeEffect(env, w, Messages(p, GenerationPrompt(requirements, criteria, codebase), [], []), MaxRetries);
      var r := GenerateEffect(env, p, decode, w, issueNumber, requirements, criteria, codebase);
      && r.world.repo == w.repo
      && (r.result.Ok? ==>
            && called.result.Ok?
            && ParseGeneration(decode, called.result.value) == Ok(r.result.value)
            && r.world.store.actions
               == w.store.actions + [NewAction(w.store, None, p.agentName, "code_generated", GenerationPayload(issueNumber, r.result.value))])
      && (called.result.Ok? && ParseGeneration(decode, called.result.value).Err? ==>
            r.result.Err? && r.world.store == w.store)
  {
  }

  // ---------------------------------------------------------------
  // create_pull_request
  // ---------------------------------------------------------------

  /** One file commit: where, what, and the commit message. */
  datatype FileWrite = FileWrite(path: string, content: string, message: string)

  function ImplementationWrites(files: seq<FileChange>): (ws: seq<FileWrite>)
    ensures |ws| == |files|
    ensures forall k :: 0 <= k < |files| ==>
      ws[k] == FileWrite(files[k].filePath, files[k].content, "Add " + files[k].filePath)
  {
    seq(|files|, k requires 0 <= k < |files| => FileWrite(files[k].filePath, files[k].content, "Add " + files[k].filePath))
  }

  function TestWrites(tests: seq<TestFile>): (ws: seq<FileWrite>)
    ensures |ws| == |tests|
    ensures forall k :: 0 <= k < |tests| ==>
      ws[k] == FileWrite(tests[k].filePath, tests[k].content, "Add tests: " + tests[k].filePath)
  {
    seq(|tests|, k requires 0 <= k < |tests| => FileWrite(tests[k].filePath, tests[k].content, "Add tests: " + tests[k].filePath))
  }

  /** The files are committed one by one, in order; the first failure stops the rest. */
  function WriteAll(svc: Service, s: RepoState, ws: seq<FileWrite>, branch: string): Step<Outcome<VcsError>>
    decreases |ws|
  {
    if |ws| == 0 then Step(s, Pass)
    else
      var before := WriteAll(svc, s, ws[..|ws| - 1], branch);
      if before.result.Fail? then before
      else
        var w := ws[|ws| - 1];
        WriteFileStep(svc, before.state, w.path, w.content, w.message, branch)
  }

  /** A non-empty sequence is its front with its last element put back. */
  lemma InitThenLast<T>(s: seq<T>)
    requires |s| > 0
    ensures s[..|s| - 1] + [s[|s| - 1]] == s
  {
  }

  /** When `x` is a prefix of `y`, what follows position `n` in `y` is what follows it in `x` and then the rest of `y`. */
  lemma PrefixTail<T>(x: seq<T>, y: seq<T>, n: nat)
    requires n <= |x| <= |y| && y[..|x|] == x
    ensures y[..n] == x[..n]
    ensures y[n..] == x[n..] + y[|x|..]
  {
    assert y == x + y[|x|..];
  }

  /** When `sent` starts with `w` and then `x`, the part of `sent` after `n` and before `x` is that of `w`. */
  lemma PrefixThen<T>(sent: seq<T>, w: seq<T>, x: T, n: nat)
    requires n <= |w| < |sent| && sent[..|w| + 1] == w + [x]
    ensures sent[n..|w|] == w[n..] && sent[|w|] == x
  {
    assert sent[n..|w|] == sent[..|w| + 1][n..|w|];
    assert sent[|w|] == sent[..|w| + 1][|w|];
  }

  /** How a successful commit went: updated, created, or an update answered 404 followed by a creation. */
  datatype CommitKind = Updated | Created | Recreated

  /** The requests a commit of `w` of the given kind sends. */
  function CommitRequests(w: FileWrite, k: CommitKind, branch: string): seq<Request> {
    var update := UpdateFile(w.path, w.content, w.message, branch);
    var create := CreateFile(w.path, w.content, w.message, branch);
    match k
    case Updated => [update]
    case Created => [create]
    case Recreated => [update, create]
  }

  /** The requests of the commits of `ws`, of the given kinds, one after the other. */
  function CommitsRequests(ws: seq<FileWrite>, kinds: seq<CommitKind>, branch: string): seq<Request>
    requires |kinds| == |ws|
    decreases |ws|
  {
    if |ws| == 0 then []
    else CommitsRequests(ws[..|ws| - 1], kinds[..|kinds| - 1], branch)
         + CommitRequests(ws[|ws| - 1], kinds[|kinds| - 1], branch)
  }

  /** `reqs` are the requests of one successful commit of `w`. */
  ghost predicate CommitSent(reqs: seq<Request>, w: FileWrite, branch: string) {
    exists k :: reqs == CommitRequests(w, k, branch)
  }

  /** `sent` splits, in order, into the requests of one successful commit per element of `ws`. */
  ghost predicate SentCommits(sent: seq<Request>, ws: seq<FileWrite>, branch: string) {
    exists kinds :: |kinds| == |ws| && sent == CommitsRequests(ws, kinds, branch)
  }

  /** Every commit sends one or two requests. */
  lemma {:induction false} CommitsRequestsLength(ws: seq<FileWrite>, kinds: seq<CommitKind>, branch: string)
    requires |kinds| == |ws|
    ensures |ws| <= |CommitsRequests(ws, kinds, branch)| <= 2 * |ws|
    decreases |ws|
  {
    if |ws| > 0 {
      CommitsRequestsLength(ws[..|ws| - 1], kinds[..|kinds| - 1], branch);
    }
  }

  /** A run of commits sends between one and two requests per file. */
  lemma SentCommitsLength(sent: seq<Request>, ws: seq<FileWrite>, branch: string)
    requires SentCommits(sent, ws, branch)
    ensures |ws| <= |sent| <= 2 * |ws|
  {
    var kinds :| |kinds| == |ws| && sent == CommitsRequests(ws, kinds, branch);
    CommitsRequestsLength(ws, kinds, branch);
  }

  /** Splitting off the last commit of a joined run leaves the first run joined with the rest of the second. */
  lemma JoinedInit(impl: seq<FileWrite>, implKinds: seq<CommitKind>, tests: seq<FileWrite>, testKinds: seq<CommitKind>)
    requires |implKinds| == |impl| && |testKinds| == |tests| > 0
    ensures (impl + tests)[..|impl + tests| - 1] == impl + tests[..|tests| - 1]
    ensures (implKinds + testKinds)[..|implKinds + testKinds| - 1] == implKinds + testKinds[..|testKinds| - 1]
    ensures (impl + tests)[|impl + tests| - 1] == tests[|tests| - 1]
    ensures (implKinds + testKinds)[|implKinds + testKinds| - 1] == testKinds[|testKinds| - 1]
  {
    assert (impl + tests)[..|impl + tests| - 1] == impl + tests[..|tests| - 1];
    assert (implKinds + testKinds)[..|implKinds + testKinds| - 1] == implKinds + testKinds[..|testKinds| - 1];
  }

  /** The requests of two runs of commits, one after the other, are those of the joined run. */
  lemma {:induction false} CommitsRequestsAppend(impl: seq<FileWrite>, implKinds: seq<CommitKind>,
                                                 tests: seq<FileWrite>, testKinds: seq<CommitKind>, branch: string)
    requires |implKinds| == |impl| && |testKinds| == |tests|
    ensures CommitsRequests(impl + tests, implKinds + testKinds, branch)
            == CommitsRequests(impl, implKinds, branch) + CommitsRequests(tests, testKinds, branch)
    decreases |tests|
  {
    if |tests| == 0 {
      assert impl + tests == impl;
      assert implKinds + testKinds == implKinds;
    } else {
      var initTests := tests[..|tests| - 1];
      var initKinds := testKinds[..|testKinds| - 1];
      JoinedInit(impl, implKinds, tests, testKinds);
      CommitsRequestsAppend(impl, implKinds, initTests, initKinds, branch);
      var a := CommitsRequests(impl, implKinds, branch);
      var b' := CommitsRequests(initTests, initKinds, branch);
      var last := CommitRequests(tests[|tests| - 1], testKinds[|testKinds| - 1], branch);
      assert (a + b') + last == a + (b' + last);
    }
  }

  /** The commits of two runs, one after the other, are the commits of the joined run. */
  lemma SentCommitsAppend(a: seq<Request>, b: seq<Request>, impl: seq<FileWrite>, tests: seq<FileWrite>, branch: string)
    requires SentCommits(a, impl, branch) && SentCommits(b, tests, branch)
    ensures SentCommits(a + b, impl + tests, branch)
  {
    var implKinds :| |implKinds| == |impl| && a == CommitsRequests(impl, implKinds, branch);
    var testKinds :| |testKinds| == |tests| && b == CommitsRequests(tests, testKinds, branch);
    CommitsRequestsAppend(impl, implKinds, tests, testKinds, branch);
    assert |implKinds + testKinds| == |impl + tests|;
  }

  /** One more successful commit extends a run of commits. */
  lemma SentCommitsSnoc(a: seq<Request>, c: seq<Request>, ws: seq<FileWrite>, w: FileWrite, branch: string)
    requires SentCommits(a, ws, branch) && CommitSent(c, w, branch)
    ensures SentCommits(a + c, ws + [w], branch)
  {
    var kinds :| |kinds| == |ws| && a == CommitsRequests(ws, kinds, branch);
    var k :| c == CommitRequests(w, k, branch);
    var all := kinds + [k];
    var ws' := ws + [w];
    assert ws'[..|ws'| - 1] == ws && all[..|all| - 1] == kinds;
    assert CommitsRequests(ws', all, branch) == a + c;
  }

  /** A successful commit of one file sends the requests of one commit, after what was sent before. */
  lemma WriteFileSendsCommit(svc: Service, s: RepoState, w: FileWrite, branch: string)
    ensures var r := WriteFileStep(svc, s, w.path, w.content, w.message, branch);
      r.result.Pass? ==> |r.state.sent| >= |s.sent| && r.state.sent[..|s.sent|] == s.sent
                         && CommitSent(r.state.sent[|s.sent|..], w, branch)
  {
    var r := WriteFileStep(svc, s, w.path, w.content, w.message, branch);
    WriteFileRequests(svc, s, w.path, w.content, w.message, branch);
    if r.result.Pass? {
      var tail := r.state.sent[|s.sent|..];
      assert r.state.sent == s.sent + tail;
      assert tail == CommitRequests(w, Updated, branch) || tail == CommitRequests(w, Created, branch)
             || tail == CommitRequests(w, Recreated, branch);
    }
  }

  /** Once a commit fails the later ones are not attempted: the run ends as it was at the failure. */
  lemma {:induction false} WriteAllStops(svc: Service, s: RepoState, ws: seq<FileWrite>, i: nat, branch: string)
    requires i <= |ws|
    requires WriteAll(svc, s, ws[..i], branch).result.Fail?
    ensures WriteAll(svc, s, ws, branch) == WriteAll(svc, s, ws[..i], branch)
    decreases |ws| - i
  {
    if i < |ws| {
      assert ws[..i + 1][..i] == ws[..i];
      assert WriteAll(svc, s, ws[..i + 1], branch) == WriteAll(svc, s, ws[..i], branch);
      WriteAllStops(svc, s, ws, i + 1, branch);
    } else {
      assert ws[..i] == ws;
    }
  }

  /** When every commit succeeds, the requests sent are those of one commit per file, in order. */
  lemma {:induction false} WriteAllSends(svc: Service, s: RepoState, ws: seq<FileWrite>, branch: string)
    ensures var r := WriteAll(svc, s, ws, branch);
      r.result.Pass? ==>
        && |r.state.sent| >= |s.sent|
        && r.state.sent[..|s.sent|] == s.sent
        && SentCommits(r.state.sent[|s.sent|..], ws, branch)
    decreases |ws|
  {
    var r := WriteAll(svc, s, ws, branch);
    if |ws| > 0 && r.result.Pass? {
      var init := ws[..|ws| - 1];
      var before := WriteAll(svc, s, init, branch);
      var w := ws[|ws| - 1];
      WriteAllSends(svc, s, init, branch);
      assert r == WriteFileStep(svc, before.state, w.path, w.content, w.message, branch);
      WriteFileSendsCommit(svc, before.state, w, branch);
      var earlier := before.state.sent[|s.sent|..];
      var commit := r.state.sent[|before.state.sent|..];
      SentCommitsSnoc(earlier, commit, init, w, branch);
      InitThenLast(ws);
      PrefixTail(before.state.sent, r.state.sent, |s.sent|);
    } else if |ws| == 0 {
      assert r.state.sent[|s.sent|..] == CommitsRequests(ws, [], branch);
    }
  }

  /** No later write in `ws` goes to the path of `ws[k]`. */
  predicate LastWriteTo(ws: seq<FileWrite>, k: int)
    requires 0 <= k < |ws|
  {
    forall j :: k < j < |ws| ==> ws[j].path != ws[k].path
  }

  /** When every commit succeeds, each path holds the content of the last commit made to it. */
  lemma {:induction false} WriteAllStores(svc: Service, s: RepoState, ws: seq<FileWrite>, branch: string)
    ensures var r := WriteAll(svc, s, ws, branch);
      r.result.Pass? ==>
        forall k :: 0 <= k < |ws| && LastWriteTo(ws, k) ==>
          branch in r.state.branches && ws[k].path in r.state.branches[branch]
          && r.state.branches[branch][ws[k].path] == ws[k].content
    decreases |ws|
  {
    var r := WriteAll(svc, s, ws, branch);
    if |ws| > 0 && r.result.Pass? {
      var init := ws[..|ws| - 1];
      var before := WriteAll(svc, s, init, branch);
      var w := ws[|ws| - 1];
      WriteAllStores(svc, s, init, branch);
      WriteFileStores(svc, before.state, w.path, w.content, w.message, branch);
      assert r == WriteFileStep(svc, before.state, w.path, w.content, w.message, branch);
      forall k | 0 <= k < |ws| && LastWriteTo(ws, k)
        ensures branch in r.state.branches && ws[k].path in r.state.branches[branch]
                && r.state.branches[branch][ws[k].path] == ws[k].content
      {
        if k < |ws| - 1 {
          assert init[k] == ws[k];
          assert LastWriteTo(init, k) by {
            forall j | k < j < |init| ensures init[j].path != init[k].path {
              assert init[j] == ws[j];
            }
          }
          assert ws[|ws| - 1].path != ws[k].path;
        }
      }
    }
  }

  /** Reuse the branch when it exists, else create it from main. */
  function EnsureBranchStep(svc: Service, s: RepoState, branch: string): Step<Outcome<VcsError>> {
    if BranchExists(svc, s, branch) then Step(s, Pass) else CreateBranchStep(svc, s, branch, MainBranch)
  }

  /** An existing branch is reused untouched; otherwise the branch is created as a copy of main. */
  lemma EnsureBranchRule(svc: Service, s: RepoState, branch: string)
    ensures var r := EnsureBranchStep(svc, s, branch);
      && (BranchExists(svc, s, branch) ==> r == Step(s, Pass))
      && (!BranchExists(svc, s, branch) && r.result.Pass? ==>
            r.state.sent == s.sent + [CreateRef(branch, MainBranch)]
            && branch in r.state.branches && r.state.branches[branch] == s.branches[MainBranch])
  {
    CreateBranchCopies(svc, s, branch, MainBranch);
  }

  /**
    The repository part of `create_pull_request`'s `try`: settle the
    branch, commit the files and then the tests, open the pull request
    into main and link the issue; the first failure ends it.
  */
  function PublishStep(svc: Service, s: RepoState, issueNumber: int, g: CodeGeneration): Step<Result<int, VcsError>> {
    var branched := EnsureBranchStep(svc, s, g.branchName);
    if branched.result.Fail? then Step(branched.state, Err(branched.result.error))
    else
      var files := WriteAll(svc, branched.state, ImplementationWrites(g.filesToCreate), g.branchName);
      if files.result.Fail? then Step(files.state, Err(files.result.error))
      else
        var tests := WriteAll(svc, files.state, TestWrites(g.testFiles), g.branchName);
        if tests.result.Fail? then Step(tests.state, Err(tests.result.error))
        else
          var pull := CreatePullStep(svc, tests.state, g.prTitle, g.prDescription, g.branchName, MainBranch);
          if pull.result.Err? then pull
          else
            var linked := LinkStep(svc, pull.state, pull.result.value, issueNumber);
            if linked.result.Fail? then Step(linked.state, Err(linked.result.error))
            else Step(linked.state, Ok(pull.result.value))
  }

  /** Linking only appends to what was sent and keeps every pull request's ends. */
  lemma LinkKeepsEnds(svc: Service, s: RepoState, pr: int, issue: int)
    ensures var r := LinkStep(svc, s, pr, issue).state;
      && |r.sent| >= |s.sent| && r.sent[..|s.sent|] == s.sent
      && r.pulls.Keys == s.pulls.Keys
      && forall n :: n in s.pulls ==> r.pulls[n].head == s.pulls[n].head && r.pulls[n].base == s.pulls[n].base
  {
  }

  /** A published pull request goes from the generated branch into main and its body links the issue. */
  lemma PublishOpensLinkedPull(svc: Service, s: RepoState, issueNumber: int, g: CodeGeneration)
    ensures var r := PublishStep(svc, s, issueNumber, g);
      r.result.Ok? ==>
        && r.result.value in r.state.pulls
        && r.state.pulls[r.result.value].head == g.branchName
        && r.state.pulls[r.result.value].base == MainBranch
        && Contains(BodyText(r.state.pulls[r.result.value]), ClosesText(issueNumber))
  {
    var r := PublishStep(svc, s, issueNumber, g);
    if r.result.Ok? {
      var branched := EnsureBranchStep(svc, s, g.branchName);
      var files := WriteAll(svc, branched.state, ImplementationWrites(g.filesToCreate), g.branchName);
      var tests := WriteAll(svc, files.state, TestWrites(g.testFiles), g.branchName);
      var pull := CreatePullStep(svc, tests.state, g.prTitle, g.prDescription, g.branchName, MainBranch);
      var pr := pull.result.value;
      LinkStepEdits(svc, pull.state, pr, issueNumber);
      LinkedBodyLinks(BodyText(pull.state.pulls[pr]), issueNumber);
      LinkKeepsEnds(svc, pull.state, pr, issueNumber);
    }
  }

  /** A successful publish sent, after the commits, the pull request and then at most the link edit. */
  lemma PublishOpensAfterCommits(svc: Service, s: RepoState, issueNumber: int, g: CodeGeneration)
    ensures var r := PublishStep(svc, s, issueNumber, g);
      var settled := EnsureBranchStep(svc, s, g.branchName).state;
      var files := WriteAll(svc, settled, ImplementationWrites(g.filesToCreate), g.branchName);
      var written := WriteAll(svc, files.state, TestWrites(g.testFiles), g.branchName);
      r.result.Ok? ==>
        && files.result.Pass? && written.result.Pass?
        && |r.state.sent| > |written.state.sent|
        && r.state.sent[..|written.state.sent| + 1]
           == written.state.sent + [CreatePull(g.prTitle, g.prDescription, g.branchName, MainBranch)]
  {
    var r := PublishStep(svc, s, issueNumber, g);
    if r.result.Ok? {
      var settled := EnsureBranchStep(svc, s, g.branchName).state;
      var files := WriteAll(svc, settled, ImplementationWrites(g.filesToCreate), g.branchName);
      var written := WriteAll(svc, files.state, TestWrites(g.testFiles), g.branchName);
      var pull := CreatePullStep(svc, written.state, g.prTitle, g.prDescription, g.branchName, MainBranch);
      LinkKeepsEnds(svc, pull.state, pull.result.value, issueNumber);
      assert r.state.sent[..|pull.state.sent|] == pull.state.sent;
    }
  }

  /**
    From position `n` on, `sent` holds the commits of every file of `impl`,
    then of every file of `tests`, in order, and then `pull`.
  */
  ghost predicate CommitsThenOpens(sent: seq<Request>, n: nat, impl: seq<FileWrite>, tests: seq<FileWrite>, branch: string,
                             pull: Request)
  {
    exists m :: n <= m < |sent| && SentCommits(sent[n..m], impl + tests, branch) && sent[m] == pull
  }

  /**
    Every generated file and test was committed, in order, before the pull
    request was opened: after the branch is settled the requests sent are
    the commits of the files, then those of the tests, then the pull request.
  */
  lemma PublishCommitsBeforeOpening(svc: Service, s: RepoState, issueNumber: int, g: CodeGeneration)
    ensures var r := PublishStep(svc, s, issueNumber, g);
      r.result.Ok? ==>
        CommitsThenOpens(r.state.sent, |EnsureBranchStep(svc, s, g.branchName).state.sent|,
                         ImplementationWrites(g.filesToCreate), TestWrites(g.testFiles), g.branchName,
                         CreatePull(g.prTitle, g.prDescription, g.branchName, MainBranch))
  {
    var r := PublishStep(svc, s, issueNumber, g);
    if r.result.Ok? {
      PublishOpensAfterCommits(svc, s, issueNumber, g);
      CommitsAfterBranch(svc, EnsureBranchStep(svc, s, g.branchName).state, ImplementationWrites(g.filesToCreate),
                         TestWrites(g.testFiles), g.branchName,
                         CreatePull(g.prTitle, g.prDescription, g.branchName, MainBranch), r.state.sent);
    }
  }

  /** Two successful runs of commits followed by the pull request leave the order `CommitsThenOpens` states. */
  lemma CommitsAfterBranch(svc: Service, settled: RepoState, impl: seq<FileWrite>, tests: seq<FileWrite>, branch: string,
                           pull: Request, sent: seq<Request>)
    requires WriteAll(svc, settled, impl, branch).result.Pass?
    requires var written := WriteAll(svc, WriteAll(svc, settled, impl, branch).state, tests, branch);
      && written.result.Pass?
      && |sent| > |written.state.sent| && sent[..|written.state.sent| + 1] == written.state.sent + [pull]
    ensures CommitsThenOpens(sent, |settled.sent|, impl, tests, branch, pull)
  {
    var files := WriteAll(svc, settled, impl, branch);
    var written := WriteAll(svc, files.state, tests, branch);
    WriteAllSends(svc, settled, impl, branch);
    WriteAllSends(svc, files.state, tests, branch);
    var n := |settled.sent|;
    var m := |written.state.sent|;
    var a := files.state.sent[n..];
    var b := written.state.sent[|files.state.sent|..];
    SentCommitsAppend(a, b, impl, tests, branch);
    PrefixTail(files.state.sent, written.state.sent, n);
    PrefixThen(sent, written.state.sent, pull, n);
  }

  function PrPayload(pr: int, issueNumber: int, g: CodeGeneration): map<string, Value> {
    map["pr_number" := VInt(pr), "issue_number" := VInt(issueNumber), "branch_name" := VStr(g.branchName),
        "files_count" := VInt(|g.filesToCreate|), "tests_count" := VInt(|g.testFiles|)]
  }

  /** The body of `create_pull_request`'s `try`: publish, then the success record and its log. */
  function TryPrEffect(env: Env, p: Persona, w: World, conversationId: nat, issueNumber: int, g: CodeGeneration)
    : Effect<int>
  {
    var published := PublishStep(env.vcs, w.repo, issueNumber, g);
    var afterPublish := w.(repo := published.state);
    if published.result.Err? then Effect(afterPublish, Err(VcsFailed(published.result.error)))
    else
      var pr := published.result.value;
      var recorded := OnStore(afterPublish, CreateGenerationStep(env.fault, w.store, conversationId, Some(pr),
                                                                 g.filesToCreate, g.testFiles, StatusPrCreated));
      if recorded.result.Err? then Effect(recorded.world, Err(recorded.result.error))
      else
        var logged := LogEffect(env, p, recorded.world, Some(conversationId), "pr_created", PrPayload(pr, issueNumber, g));
        if logged.result.Err? then Effect(logged.world, Err(logged.result.error))
        else Effect(logged.world, Ok(pr))
  }

  /**
    The attempt leaves the repository as publishing left it, touches no
    conversation, and on success adds the "pr_created" record as the newest.
  */
  lemma TryPrFrame(env: Env, p: Persona, w: World, conversationId: nat, issueNumber: int, g: CodeGeneration)
    ensures var r := TryPrEffect(env, p, w, conversationId, issueNumber, g);
      var published := PublishStep(env.vcs, w.repo, issueNumber, g);
      && r.world.repo == published.state
      && r.world.store.conversations == w.store.conversations
      && r.world.llmCalls == w.llmCalls
      && (r.result.Ok? ==>
            && published.result == Ok(r.result.value)
            && r.world.store.generations
               == w.store.generations + [NewGeneration(w.store, conversationId, Some(r.result.value), g.filesToCreate,
                                                       g.testFiles, StatusPrCreated)])
      && (GenerationIdsBelow(w.store) ==> GenerationIdsBelow(r.world.store))
  {
  }

  function PrUrl(repoName: string, pr: int): string {
    "https://github.com/" + repoName + "/pull/" + IntToString(pr)
  }

  /**
    `create_pull_request`: on success a "pr_created" result with the pull
    request's number and address; on any failure of the `try`, a "failed"
    record is created and then updated with the error text, nothing done
    before the failure is undone, and a "failed" result is returned.
  */
  function CreatePrEffect(env: Env, p: Persona, w: World, conversationId: nat, issueNumber: int, g: CodeGeneration)
    : Effect<CodeGenerationResult>
  {
    var tried := TryPrEffect(env, p, w, conversationId, issueNumber, g);
    if tried.result.Ok? then
      var pr := tried.result.value;
      Effect(tried.world, Ok(CodeGenerationResult(g, Some(pr), Some(PrUrl(env.repoName, pr)), StatusPrCreated, None)))
    else
      var message := ErrorText(tried.result.error);
      var failed := OnStore(tried.world, CreateGenerationStep(env.fault, tried.world.store, conversationId, None,
                                                              g.filesToCreate, g.testFiles, StatusFailed));
      if failed.result.Err? then Effect(failed.world, Err(failed.result.error))
      else
        var updated := OnStoreOutcome(failed.world, UpdateGenerationStep(env.fault, failed.world.store, failed.result.value,
                                                                         StatusFailed, None, Some(message)));
        if updated.result.Err? then Effect(updated.world, Err(updated.result.error))
        else Effect(updated.world, Ok(CodeGenerationResult(g, None, None, StatusFailed, Some(message))))
  }

  /**
    Every result is one of two shapes: "pr_created" with the pull
    request's number and address and no error, or "failed" with the
    error text of the attempt and neither number nor address, the
    repository left as the failed attempt left it.
  */
  lemma CreatePrOutcomes(env: Env, p: Persona, w: World, conversationId: nat, issueNumber: int, g: CodeGeneration)
    ensures var tried := TryPrEffect(env, p, w, conversationId, issueNumber, g);
      var r := CreatePrEffect(env, p, w, conversationId, issueNumber, g);
      r.result.Ok? ==>
        && r.result.value.generation == g
        && (r.result.value.status == StatusPrCreated || r.result.value.status == StatusFailed)
        && (r.result.value.status == StatusPrCreated <==> tried.result.Ok?)
        && (tried.result.Ok? ==>
              && r.result.value.prNumber == Some(tried.result.value)
              && r.result.value.prUrl == Some(PrUrl(env.repoName, tried.result.value))
              && r.result.value.errorMessage.None?
              && r == Effect(tried.world, r.result))
        && (tried.result.Err? ==>
              && r.result.value.prNumber.None? && r.result.value.prUrl.None?
              && r.result.value.errorMessage == Some(ErrorText(tried.result.error))
              && r.world.repo == tried.world.repo)
  {
  }

  /**
    A "pr_created" result names an open pull request from the generated
    branch into main whose body links the issue, and the newest generation
    record says "pr_created" with that number.
  */
  lemma CreatePrSuccess(env: Env, p: Persona, w: World, conversationId: nat, issueNumber: int, g: CodeGeneration)
    ensures var r := CreatePrEffect(env, p, w, conversationId, issueNumber, g);
      r.result.Ok? && r.result.value.status == StatusPrCreated ==>
        var pr := r.result.value.prNumber.value;
        && r.result.value.prNumber.Some?
        && pr in r.world.repo.pulls
        && r.world.repo.pulls[pr].head == g.branchName && r.world.repo.pulls[pr].base == MainBranch
        && Contains(BodyText(r.world.repo.pulls[pr]), ClosesText(issueNumber))
        && |r.world.store.generations| > 0
        && r.world.store.generations[|r.world.store.generations| - 1].status == StatusPrCreated
        && r.world.store.generations[|r.world.store.generations| - 1].prNumber == Some(pr)
  {
    CreatePrOutcomes(env, p, w, conversationId, issueNumber, g);
    TryPrFrame(env, p, w, conversationId, issueNumber, g);
    PublishOpensLinkedPull(env.vcs, w.repo, issueNumber, g);
  }

  /**
    After a "failed" result the newest generation record says "failed",
    without a pull request number, carrying the error text.
  */
  lemma CreatePrFailure(env: Env, p: Persona, w: World, conversationId: nat, issueNumber: int, g: CodeGeneration)
    requires GenerationIdsBelow(w.store)
    ensures var tried := TryPrEffect(env, p, w, conversationId, issueNumber, g);
      var r := CreatePrEffect(env, p, w, conversationId, issueNumber, g);
      r.result.Ok? && r.result.value.status == StatusFailed ==>
        r.world.store.generations
        == tried.world.store.generations
           + [GenerationRecord(tried.world.store.nextId, conversationId, None, g.filesToCreate, g.testFiles,
                               StatusFailed, Some(ErrorText(tried.result.error)), tried.world.store.nextId)]
  {
    var tried := TryPrEffect(env, p, w, conversationId, issueNumber, g);
    var r := CreatePrEffect(env, p, w, conversationId, issueNumber, g);
    CreatePrOutcomes(env, p, w, conversationId, issueNumber, g);
    if r.result.Ok? && r.result.value.status == StatusFailed {
      TryPrFrame(env, p, w, conversationId, issueNumber, g);
      var s := tried.world.store;
      var record := NewGeneration(s, conversationId, None, g.filesToCreate, g.testFiles, StatusFailed);
      ChangeNewestGeneration(s.generations, record, StatusFailed, None, Some(ErrorText(tried.result.error)));
    }
  }

  // ---------------------------------------------------------------
  // handle_ready_for_dev_issue
  // ---------------------------------------------------------------

  const PrCreatedIntro := "## \U{1F680} Pull Request Created\n\nI've implemented this feature and created a pull request:\n\n**PR:** "
  const PrCreatedOutro := " test files\n\nThe CI/CD pipeline will run automated tests. Once tests pass, the PR will be ready for review."

  function PrCommentBody(url: string, g: CodeGeneration): string {
    PrCreatedIntro + url + "\n**Branch:** `" + g.branchName + "`\n\n**Changes:**\n- " + IntToString(|g.filesToCreate|)
    + " implementation files\n- " + IntToString(|g.testFiles|) + PrCreatedOutro
  }

  /** Announce the pull request on the issue when the result has an address. */
  function AnnounceEffect(env: Env, p: Persona, w: World, result: CodeGenerationResult, issueNumber: int)
    : Effect<CodeGenerationResult>
  {
    if result.prUrl.Some? && |result.prUrl.value| > 0 then
      var commented := CommentEffect(env, w, issueNumber,
                                     FormatComment(p.agentName, PrCommentBody(result.prUrl.value, result.generation), true));
      if commented.result.Err? then Effect(commented.world, Err(commented.result.error))
      else Effect(commented.world, Ok(result))
    else Effect(w, Ok(result))
  }

  /** A result with an address is announced by one comment naming it. */
  lemma AnnounceSends(env: Env, p: Persona, w: World, result: CodeGenerationResult, issueNumber: int)
    requires result.prUrl.Some? && |result.prUrl.value| > 0
    ensures var r := AnnounceEffect(env, p, w, result, issueNumber);
      r.result.Ok? ==>
        && r.result.value == result
        && r.world.repo.sent
           == w.repo.sent + [CommentOnIssue(issueNumber, FormatComment(p.agentName, PrCommentBody(result.prUrl.value, result.generation), true))]
  {
  }

  /** A result without an address is returned as it is and nothing is sent. */
  lemma AnnounceNothing(env: Env, p: Persona, w: World, result: CodeGenerationResult, issueNumber: int)
    requires result.prUrl.None?
    ensures AnnounceEffect(env, p, w, result, issueNumber) == Effect(w, Ok(result))
  {
  }

  /** `handle_ready_for_dev_issue`: generate, open the pull request, and announce it on the issue. */
  function HandleReadyEffect(env: Env, p: Persona, decode: GenerationDecoder, w: World, conversationId: nat,
                             issueNumber: int, requirements: string, criteria: seq<string>): Effect<CodeGenerationResult>
  {
    var generated := GenerateEffect(env, p, decode, w, issueNumber, requirements, criteria, None);
    if generated.result.Err? then Effect(generated.world, Err(generated.result.error))
    else
      var created := CreatePrEffect(env, p, generated.world, conversationId, issueNumber, generated.result.value);
      if created.result.Err? then created
      else AnnounceEffect(env, p, created.world, created.result.value, issueNumber)
  }

  /**
    The issue is told about the pull request exactly when one was opened:
    after a "pr_created" result the last request sent is the comment
    naming its address; after a "failed" result nothing was sent after
    the failed attempt.
  */
  lemma HandleReadyAnnounces(env: Env, p: Persona, decode: GenerationDecoder, w: World, conversationId: nat,
                             issueNumber: int, requirements: string, criteria: seq<string>)
    ensures var r := HandleReadyEffect(env, p, decode, w, conversationId, issueNumber, requirements, criteria);
      var generated := GenerateEffect(env, p, decode, w, issueNumber, requirements, criteria, None);
      r.result.Ok? ==>
        && generated.result.Ok?
        && (r.result.value.status == StatusPrCreated ==>
              && r.result.value.prUrl.Some?
              && |r.world.repo.sent| > 0
              && r.world.repo.sent[|r.world.repo.sent| - 1]
                 == CommentOnIssue(issueNumber, FormatComment(p.agentName, PrCommentBody(r.result.value.prUrl.value, r.result.value.generation), true)))
        && (r.result.value.status == StatusFailed ==>
              r.world.repo == TryPrEffect(env, p, generated.world, conversationId, issueNumber, generated.result.value).world.repo)
  {
    var generated := GenerateEffect(env, p, decode, w, issueNumber, requirements, criteria, None);
    if generated.result.Ok? {
      var created := CreatePrEffect(env, p, generated.world, conversationId, issueNumber, generated.result.value);
      CreatePrOutcomes(env, p, generated.world, conversationId, issueNumber, generated.result.value);
      if created.result.Ok? {
        var result := created.result.value;
        if result.status == StatusPrCreated {
          assert |PrUrl(env.repoName, result.prNumber.value)| > 0;
          AnnounceSends(env, p, created.world, result, issueNumber);
        } else {
          AnnounceNothing(env, p, created.world, result, issueNumber);
        }
      }
    }
  }

  /** `DeveloperAgent`. */
  class DeveloperAgent {
    const base: BaseAgent
    const decode: GenerationDecoder

    constructor (base: BaseAgent, decode: GenerationDecoder)
      ensures this.base == base && this.decode == decode
    {
      this.base := base;
      this.decode := decode;
    }

    method Parse(text: string) returns (r: Result<CodeGeneration, Failure>)
      ensures r == ParseGeneration(decode, text)
    {
      var raw := decode(text);
      if raw.None? {
        return Err(ParseFailed("Invalid json output"));
      }
      var validated := ValidateCodeGeneration(raw.value);
      if validated.Err? {
        return Err(ParseFailed("Failed to parse CodeGeneration: missing " + Join(validated.error, ", ")));
      }
      r := Ok(validated.value);
    }

    method GenerateCode(issueNumber: int, requirements: string, criteria: seq<string>, codebase: Option<string>)
      returns (r: Result<CodeGeneration, Failure>)
      modifies base.llm, base.db
      ensures Effect(base.Snapshot(), r)
           == GenerateEffect(base.Environment(), base.persona, decode, old(base.Snapshot()), issueNumber, requirements,
                             criteria, codebase)
    {
      var messages := base.BuildMessages(GenerationPrompt(requirements, criteria, codebase), [], []);
      var response := base.InvokeWithRetry(messages, MaxRetries);
      if response.Err? {
        return Err(response.error);
      }
      var generation := Parse(response.value);
      if generation.Err? {
        return generation;
      }
      var logged := base.LogAction("code_generated", GenerationPayload(issueNumber, generation.value), None);
      if logged.Err? {
        return Err(logged.error);
      }
      r := generation;
    }

    /** Commits the files one at a time, stopping at the first failure. */
    method CommitFiles(ws: seq<FileWrite>, branch: string) returns (r: Outcome<VcsError>)
      modifies base.vcs
      ensures Step(base.vcs.Snapshot(), r) == WriteAll(base.vcs.service, old(base.vcs.Snapshot()), ws, branch)
    {
      var i := 0;
      while i < |ws|
        invariant 0 <= i <= |ws|
        invariant Step(base.vcs.Snapshot(), Pass) == WriteAll(base.vcs.service, old(base.vcs.Snapshot()), ws[..i], branch)
      {
        assert ws[..i + 1][..i] == ws[..i];
        var written := base.vcs.CreateOrUpdateFile(ws[i].path, ws[i].content, ws[i].message, branch);
        if written.Fail? {
          WriteAllStops(base.vcs.service, old(base.vcs.Snapshot()), ws, i + 1, branch);
          return written;
        }
        i := i + 1;
      }
      assert ws[..|ws|] == ws;
      r := Pass;
    }

    method EnsureBranch(branch: string) returns (r: Outcome<VcsError>)
      modifies base.vcs
      ensures Step(base.vcs.Snapshot(), r) == EnsureBranchStep(base.vcs.service, old(base.vcs.Snapshot()), branch)
    {
      var present := base.vcs.IsBranch(branch);
      if present {
        return Pass;
      }
      r := base.vcs.CreateBranch(branch, MainBranch);
    }

    method Publish(issueNumber: int, g: CodeGeneration) returns (r: Result<int, VcsError>)
      modifies base.vcs
      ensures Step(base.vcs.Snapshot(), r) == PublishStep(base.vcs.service, old(base.vcs.Snapshot()), issueNumber, g)
    {
      var branched := EnsureBranch(g.branchName);
      if branched.Fail? {
        return Err(branched.error);
      }
      var files := CommitFiles(ImplementationWrites(g.filesToCreate), g.branchName);
      if files.Fail? {
        return Err(files.error);
      }
      var tests := CommitFiles(TestWrites(g.testFiles), g.branchName);
      if tests.Fail? {
        return Err(tests.error);
      }
      r := base.vcs.CreatePullRequest(g.prTitle, g.prDescription, g.branchName, MainBranch);
      if r.Err? {
        return;
      }
      var linked := base.vcs.LinkIssueToPr(r.value, issueNumber);
      if linked.Fail? {
        return Err(linked.error);
      }
    }

    method TryCreatePullRequest(conversationId: nat, issueNumber: int, g: CodeGeneration) returns (r: Result<int, Failure>)
      modifies base.vcs, base.db
      ensures Effect(base.Snapshot(), r)
           == TryPrEffect(base.Environment(), base.persona, old(base.Snapshot()), conversationId, issueNumber, g)
    {
      var published := Publish(issueNumber, g);
      if published.Err? {
        return Err(VcsFailed(published.error));
      }
      var pr := published.value;
      var recorded := base.db.CreateCodeGeneration(conversationId, Some(pr), g.filesToCreate, g.testFiles, StatusPrCreated);
      if recorded.Err? {
        return Err(StoreFailed(recorded.error));
      }
      var logged := base.LogAction("pr_created", PrPayload(pr, issueNumber, g), Some(conversationId));
      if logged.Err? {
        return Err(logged.error);
      }
      r := Ok(pr);
    }

    method CreatePullRequest(conversationId: nat, issueNumber: int, g: CodeGeneration)
      returns (r: Result<CodeGenerationResult, Failure>)
      modifies base.vcs, base.db
      ensures Effect(base.Snapshot(), r)
           == CreatePrEffect(base.Environment(), base.persona, old(base.Snapshot()), conversationId, issueNumber, g)
    {
      var tried := TryCreatePullRequest(conversationId, issueNumber, g);
      if tried.Ok? {
        var pr := tried.value;
        return Ok(CodeGenerationResult(g, Some(pr), Some(PrUrl(base.vcs.name, pr)), StatusPrCreated, None));
      }
      var message := ErrorText(tried.error);
      var id := base.db.CreateCodeGeneration(conversationId, None, g.filesToCreate, g.testFiles, StatusFailed);
      if id.Err? {
        return Err(StoreFailed(id.error));
      }
      var updated := base.db.UpdateCodeGenerationStatus(id.value, StatusFailed, None, Some(message));
      if updated.Fail? {
        return Err(StoreFailed(updated.error));
      }
      r := Ok(CodeGenerationResult(g, None, None, StatusFailed, Some(message)));
    }

    method Announce(result: CodeGenerationResult, issueNumber: int) returns (r: Result<CodeGenerationResult, Failure>)
      modifies base.vcs
      ensures Effect(base.Snapshot(), r)
           == AnnounceEffect(base.Environment(), base.persona, old(base.Snapshot()), result, issueNumber)
    {
      r := Ok(result);
      if result.prUrl.Some? && |result.prUrl.value| > 0 {
        var comment := FormatComment(base.persona.agentName, PrCommentBody(result.prUrl.value, result.generation), true);
        var posted := base.CreateIssueComment(issueNumber, comment);
        if posted.Err? {
          r := Err(posted.error);
        }
      }
    }

    method HandleReadyForDevIssue(conversationId: nat, issueNumber: int, requirements: string, criteria: seq<string>)
      returns (r: Result<CodeGenerationResult, Failure>)
      modifies base.llm, base.vcs, base.db
      ensures Effect(base.Snapshot(), r)
           == HandleReadyEffect(base.Environment(), base.persona, decode, old(base.Snapshot()), conversationId,
                                issueNumber, requirements, criteria)
    {
      var generated := GenerateCode(issueNumber, requirements, criteria, None);
      if generated.Err? {
        return Err(generated.error);
      }
      r := CreatePullRequest(conversationId, issueNumber, generated.value);
      if r.Err? {
        return;
      }
      r := Announce(r.value, issueNumber);
    }
  }
}
