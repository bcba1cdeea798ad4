/**
  The developer agent's output: files to write, test files, the pull request
  metadata, and the result record of one generation. Each record comes with
  its validation from a JSON object (required fields, defaults, `ge=0`
  bounds) and its dump back to one.
*/
module CodeGenerationModel {
  import opened Wrappers

  const StatusGenerated := "generated"
  const StatusPrCreated := "pr_created"
  const StatusFailed := "failed"

  datatype FileChange = FileChange(
    filePath: string,
    content: string,
    operation: string,
    language: Option<string>,
    description: string
  )

  datatype TestFile = TestFile(
    filePath: string,
    content: string,
    testFramework: string,
    testCount: nat,
    coverageTargets: seq<string>
  )

  datatype CodeGeneration = CodeGeneration(
    filesToCreate: seq<FileChange>,
    testFiles: seq<TestFile>,
    commitMessage: string,
    prTitle: string,
    prDescription: string,
    branchName: string,
    dependencies: seq<string>,
    environmentVariables: map<string, string>,
    migrationSteps: seq<string>,
    breakingChanges: seq<string>,
    estimatedTestTimeSeconds: Option<nat>
  )

  /** `CodeGenerationResult` (the review and the creation time are not modelled). */
  datatype CodeGenerationResult = CodeGenerationResult(
    generation: CodeGeneration,
    prNumber: Option<int>,
    prUrl: Option<string>,
    status: string,
    errorMessage: Option<string>
  )

  // The same records as JSON objects, integers unchecked. `None` is an absent key, or a null in a field
  // the record declares optional; a null in any other field is a failure of the decoder that yields these.

  datatype RawFileChange = RawFileChange(
    filePath: Option<string>,
    content: Option<string>,
    operation: Option<string>,
    language: Option<string>,
    description: Option<string>
  )

  datatype RawTestFile = RawTestFile(
    filePath: Option<string>,
    content: Option<string>,
    testFramework: Option<string>,
    testCount: Option<int>,
    coverageTargets: Option<seq<string>>
  )

  datatype RawCodeGeneration = RawCodeGeneration(
    filesToCreate: Option<seq<RawFileChange>>,
    testFiles: Option<seq<RawTestFile>>,
    commitMessage: Option<string>,
    prTitle: Option<string>,
    prDescription: Option<string>,
    branchName: Option<string>,
    dependencies: Option<seq<string>>,
    environmentVariables: Option<map<string, string>>,
    migrationSteps: Option<seq<string>>,
    breakingChanges: Option<seq<string>>,
    estimatedTestTimeSeconds: Option<int>
  )

  datatype RawCodeGenerationResult = RawCodeGenerationResult(
    generation: Option<RawCodeGeneration>,
    prNumber: Option<int>,
    prUrl: Option<string>,
    status: Option<string>,
    errorMessage: Option<string>
  )

  function Missing<T>(o: Option<T>, name: string): seq<string> {
    if o.None? then [name] else []
  }

  function ListOrEmpty(o: Option<seq<string>>): seq<string> {
    if o.Some? then o.value else []
  }

  function ValidateFileChange(raw: RawFileChange): Result<FileChange, seq<string>> {
    var errors := Missing(raw.filePath, "file_path") + Missing(raw.content, "content")
                  + Missing(raw.description, "description");
    if errors != [] then Err(errors)
    else Ok(FileChange(raw.filePath.value, raw.content.value,
                       if raw.operation.Some? then raw.operation.value else "create",
                       raw.language, raw.description.value))
  }

  function DumpFileChange(f: FileChange): RawFileChange {
    RawFileChange(Some(f.filePath), Some(f.content), Some(f.operation), f.language, Some(f.description))
  }

  /** A file change needs a path, a content and a description; the operation defaults to "create". */
  lemma ValidateFileChangeAccepts(raw: RawFileChange)
    ensures ValidateFileChange(raw).Ok? <==>
      raw.filePath.Some? && raw.content.Some? && raw.description.Some?
    ensures ValidateFileChange(raw).Ok? && raw.operation.None? ==>
      ValidateFileChange(raw).value.operation == "create"
    ensures ValidateFileChange(raw).Ok? ==> ValidateFileChange(raw).value.language == raw.language
  {
  }

  function ValidateTestFile(raw: RawTestFile): Result<TestFile, seq<string>> {
    var errors := Missing(raw.filePath, "file_path") + Missing(raw.content, "content")
                  + Missing(raw.testFramework, "test_framework") + Missing(raw.testCount, "test_count")
                  + (if raw.testCount.Some? && raw.testCount.value < 0 then ["test_count"] else []);
    if errors != [] then Err(errors)
    else Ok(TestFile(raw.filePath.value, raw.content.value, raw.testFramework.value,
                     raw.testCount.value, ListOrEmpty(raw.coverageTargets)))
  }

  function DumpTestFile(t: TestFile): RawTestFile {
    RawTestFile(Some(t.filePath), Some(t.content), Some(t.testFramework), Some(t.testCount), Some(t.coverageTargets))
  }

  /** A test file needs its four fields, and a negative test count is refused. */
  lemma ValidateTestFileAccepts(raw: RawTestFile)
    ensures ValidateTestFile(raw).Ok? <==>
      raw.filePath.Some? && raw.content.Some? && raw.testFramework.Some?
      && raw.testCount.Some? && raw.testCount.value >= 0
    ensures ValidateTestFile(raw).Ok? ==> ValidateTestFile(raw).value.testCount == raw.testCount.value
    ensures ValidateTestFile(raw).Ok? && raw.coverageTargets.None? ==>
      ValidateTestFile(raw).value.coverageTargets == []
  {
  }

  /** Validation of a list of file changes: all of them, or the first failure. */
  function ValidateFileChanges(raws: seq<RawFileChange>): (r: Result<seq<FileChange>, seq<string>>)
    ensures r.Ok? <==> forall k :: 0 <= k < |raws| ==> ValidateFileChange(raws[k]).Ok?
    ensures r.Ok? ==> (|r.value| == |raws|
      && forall k :: 0 <= k < |raws| ==> r.value[k] == ValidateFileChange(raws[k]).value)
  {
    if |raws| == 0 then Ok([])
    else
      match ValidateFileChange(raws[0])
      case Err(e) => Err(["files_to_create"] + e)
      case Ok(f) =>
        match ValidateFileChanges(raws[1..])
        case Err(e) => Err(e)
        case Ok(fs) => Ok([f] + fs)
  }

  /** Validation of a list of test files: all of them, or the first failure. */
  function ValidateTestFiles(raws: seq<RawTestFile>): (r: Result<seq<TestFile>, seq<string>>)
    ensures r.Ok? <==> forall k :: 0 <= k < |raws| ==> ValidateTestFile(raws[k]).Ok?
    ensures r.Ok? ==> (|r.value| == |raws|
      && forall k :: 0 <= k < |raws| ==> r.value[k] == ValidateTestFile(raws[k]).value)
  {
    if |raws| == 0 then Ok([])
    else
      match ValidateTestFile(raws[0])
      case Err(e) => Err(["test_files"] + e)
      case Ok(t) =>
        match ValidateTestFiles(raws[1..])
        case Err(e) => Err(e)
        case Ok(ts) => Ok([t] + ts)
  }

  function ValidateCodeGeneration(raw: RawCodeGeneration): Result<CodeGeneration, seq<string>> {
    var files := ValidateFileChanges(if raw.filesToCreate.Some? then raw.filesToCreate.value else []);
    var tests := ValidateTestFiles(if raw.testFiles.Some? then raw.testFiles.value else []);
    var errors :=
      (if files.Err? then files.error else [])
      + (if tests.Err? then tests.error else [])
      + Missing(raw.commitMessage, "commit_message") + Missing(raw.prTitle, "pr_title")
      + Missing(raw.prDescription, "pr_description") + Missing(raw.branchName, "branch_name")
      + (if raw.estimatedTestTimeSeconds.Some? && raw.estimatedTestTimeSeconds.value < 0
         then ["estimated_test_time_seconds"] else []);
    if errors != [] || files.Err? || tests.Err? then Err(errors)
    else Ok(CodeGeneration(
      files.value, tests.value,
      raw.commitMessage.value, raw.prTitle.value, raw.prDescription.value, raw.branchName.value,
      ListOrEmpty(raw.dependencies),
      if raw.environmentVariables.Some? then raw.environmentVariables.value else map[],
      ListOrEmpty(raw.migrationSteps), ListOrEmpty(raw.breakingChanges),
      if raw.estimatedTestTimeSeconds.Some? then Some(raw.estimatedTestTimeSeconds.value as nat) else None))
  }

  function DumpCodeGeneration(g: CodeGeneration): RawCodeGeneration {
    RawCodeGeneration(
      Some(seq(|g.filesToCreate|, k requires 0 <= k < |g.filesToCreate| => DumpFileChange(g.filesToCreate[k]))),
      Some(seq(|g.testFiles|, k requires 0 <= k < |g.testFiles| => DumpTestFile(g.testFiles[k]))),
      Some(g.commitMessage), Some(g.prTitle), Some(g.prDescription), Some(g.branchName),
      Some(g.dependencies), Some(g.environmentVariables), Some(g.migrationSteps), Some(g.breakingChanges),
      if g.estimatedTestTimeSeconds.Some? then Some(g.estimatedTestTimeSeconds.value) else None)
  }

  /**
    A generation is accepted exactly when its four pull-request strings are
    present, every nested file and test file is valid, and the test-time
    estimate is absent or non-negative.
  */
  lemma ValidateCodeGenerationAccepts(raw: RawCodeGeneration)
    ensures ValidateCodeGeneration(raw).Ok? <==>
      && raw.commitMessage.Some? && raw.prTitle.Some? && raw.prDescription.Some? && raw.branchName.Some?
      && (raw.filesToCreate.Some? ==>
            forall k :: 0 <= k < |raw.filesToCreate.value| ==> ValidateFileChange(raw.filesToCreate.value[k]).Ok?)
      && (raw.testFiles.Some? ==>
            forall k :: 0 <= k < |raw.testFiles.value| ==> ValidateTestFile(raw.testFiles.value[k]).Ok?)
      && (raw.estimatedTestTimeSeconds.Some? ==> raw.estimatedTestTimeSeconds.value >= 0)
  {
  }

  /** A generation with only its required strings has empty lists, no variables and no estimate. */
  lemma CodeGenerationDefaults(commitMessage: string, prTitle: string, prDescription: string, branchName: string)
    ensures var r := ValidateCodeGeneration(RawCodeGeneration(None, None, Some(commitMessage), Some(prTitle),
                                                              Some(prDescription), Some(branchName),
                                                              None, None, None, None, None));
      && r.Ok?
      && r.value.filesToCreate == [] && r.value.testFiles == []
      && r.value.commitMessage == commitMessage && r.value.branchName == branchName
      && r.value.dependencies == [] && r.value.environmentVariables == map[]
      && r.value.migrationSteps == [] && r.value.breakingChanges == []
      && r.value.estimatedTestTimeSeconds.None?
  {
  }

  lemma FileChangesRoundTrip(fs: seq<FileChange>)
    ensures ValidateFileChanges(seq(|fs|, k requires 0 <= k < |fs| => DumpFileChange(fs[k]))) == Ok(fs)
  {
    var raws := seq(|fs|, k requires 0 <= k < |fs| => DumpFileChange(fs[k]));
    var r := ValidateFileChanges(raws);
    assert forall k :: 0 <= k < |raws| ==> ValidateFileChange(raws[k]) == Ok(fs[k]);
    assert r.Ok?;
    assert r.value == fs;
  }

  lemma TestFilesRoundTrip(ts: seq<TestFile>)
    ensures ValidateTestFiles(seq(|ts|, k requires 0 <= k < |ts| => DumpTestFile(ts[k]))) == Ok(ts)
  {
    var raws := seq(|ts|, k requires 0 <= k < |ts| => DumpTestFile(ts[k]));
    var r := ValidateTestFiles(raws);
    assert forall k :: 0 <= k < |raws| ==> ValidateTestFile(raws[k]) == Ok(ts[k]);
    assert r.Ok?;
    assert r.value == ts;
  }

  /** Dumping a generation and validating it again gives the same generation back. */
  lemma CodeGenerationRoundTrip(g: CodeGeneration)
    ensures ValidateCodeGeneration(DumpCodeGeneration(g)) == Ok(g)
  {
    FileChangesRoundTrip(g.filesToCreate);
    TestFilesRoundTrip(g.testFiles);
    var raw := DumpCodeGeneration(g);
    var r := ValidateCodeGeneration(raw);
    assert r.Ok?;
    assert r.value.filesToCreate == g.filesToCreate && r.value.testFiles == g.testFiles;
    assert r.value.estimatedTestTimeSeconds == g.estimatedTestTimeSeconds;
  }

  function ValidateCodeGenerationResult(raw: RawCodeGenerationResult): Result<CodeGenerationResult, seq<string>> {
    if raw.generation.None? then Err(["generation"])
    else
      match ValidateCodeGeneration(raw.generation.value)
      case Err(e) => Err(["generation"] + e)
      case Ok(g) =>
        Ok(CodeGenerationResult(g, raw.prNumber, raw.prUrl,
                                if raw.status.Some? then raw.status.value else StatusGenerated,
                                raw.errorMessage))
  }

  /**
    A result needs a valid generation; without the other keys it has status
    "generated" and no pull request or error.
  */
  lemma CodeGenerationResultDefaults(g: RawCodeGeneration)
    ensures var r := ValidateCodeGenerationResult(RawCodeGenerationResult(Some(g), None, None, None, None));
      && (r.Ok? <==> ValidateCodeGeneration(g).Ok?)
      && (r.Ok? ==> r.value.generation == ValidateCodeGeneration(g).value && r.value.status == StatusGenerated
                    && r.value.prNumber.None? && r.value.prUrl.None? && r.value.errorMessage.None?)
    ensures ValidateCodeGenerationResult(RawCodeGenerationResult(None, None, None, None, None)).Err?
  {
  }
}
