/** Running submitted code in a throw-away container: the language lookup,
    the per-request temporary directory and the files written into it, the
    command list and the `docker run` argument vector, the mapping of the
    process's end to an output or a thrown error, and the cleanup in
    `finally`.

    The file system, the process and the UUID are outside the model: the
    session id and the answers the host gives (a `World`) are inputs, and
    what the executor asks of the host is recorded as a trace of effects. */
module DockerExecution {
  import opened Text
  import opened LanguageConfigs

  /** One request to the host, in the order the executor makes them. */
  datatype Effect =
    | MakeDir(path: string)
    | WriteFile(path: string, body: Body)
    | Spawn(argv: seq<string>)
    | RemoveDir(path: string)
    | Log(line: string)

  /** What a written file holds: text from the request, or the fixed C#
      project descriptor. */
  datatype Body = Verbatim(text: string) | ProjectDescriptor

  function BodyText(b: Body): string
  {
    match b
    case Verbatim(text) => text
    case ProjectDescriptor => CsprojContent
  }

  /** How the container process ended: its `close` event with the exit code
      (absent when a signal killed it), or an `error` event first. Both carry
      the stdout and stderr text gathered until then. */
  datatype ProcessEnd =
    | Closed(code: Option<int>, stdout: string, stderr: string)
    | SpawnFailed(message: string, stdout: string, stderr: string)

  /** The host's answers: an error message for a failing `mkdir`, for each
      file name whose write fails, and for a failing `rm`; and the process's end. */
  datatype World = World(
    mkdirError: Option<string>,
    writeErrors: map<string, string>,
    process: ProcessEnd,
    rmError: Option<string>)

  /** What `executeInDocker` resolves to, or the message of the error it throws. */
  datatype Outcome = Output(output: string) | Thrown(message: string)

  datatype Run = Run(outcome: Outcome, effects: seq<Effect>)

  const StdinPipe := "cat /workspace/input.txt | "

  /** The project descriptor written next to C# sources. */
  const CsprojContent := "\n<Project Sdk=\"Microsoft.NET.Sdk\">\n  <PropertyGroup>\n    <OutputType>Exe</OutputType>\n    <TargetFramework>net7.0</TargetFramework>\n  </PropertyGroup>\n</Project>\n"

  const ProjectFile := "Program.csproj"
  const InputFile := "input.txt"
  const UnsupportedLanguage := "[ERROR] Unsupported language: "
  const DebugCommand := "[DEBUG] Docker command: "
  const DeleteFailed := "[ERROR] Failed to delete temp directory: "
  const ExitedWithCode := "Exited with code "
  const SpawnFailure := "Failed to execute command: "

  /** The message of the TypeError raised by `undefined.replace(...)`. */
  const UndefinedReplace := "Cannot read properties of undefined (reading 'replace')"

  /** `path.resolve(process.cwd(), "temp", sessionId)`. */
  function TempDir(cwd: string, sessionId: string): string
  {
    cwd + "/temp/" + sessionId
  }

  /** `path.join(dir, name)`. */
  function PathIn(dir: string, name: string): string
  {
    dir + "/" + name
  }

  /** The `stdin = ""` default; any empty input counts as no input. */
  function InputOf(stdin: Option<string>): string
  {
    if stdin.Some? then stdin.value else ""
  }

  /** The files written into the temporary directory, in order: the source,
      the project descriptor for csharp, and `input.txt` when there is input. */
  function WorkspaceFiles(language: string, c: LanguageConfig, code: string, input: string): seq<(string, Body)>
  {
    [(c.fileName, Verbatim(code))]
    + (if language == "csharp" then [(ProjectFile, ProjectDescriptor)] else [])
    + (if input != "" then [(InputFile, Verbatim(input))] else [])
  }

  /** Writes the files one after the other; the first failing write stops
      the sequence with its error. */
  function WriteFiles(dir: string, files: seq<(string, Body)>, errors: map<string, string>): (r: (seq<Effect>, Option<string>))
    ensures |r.0| <= |files|
    ensures r.1.None? ==> |r.0| == |files|
    ensures forall k :: 0 <= k < |r.0| ==> r.0[k] == WriteFile(PathIn(dir, files[k].0), files[k].1)
  {
    if files == [] then ([], None)
    else
      var write := WriteFile(PathIn(dir, files[0].0), files[0].1);
      if files[0].0 in errors then ([write], Some(errors[files[0].0]))
      else
        var rest := WriteFiles(dir, files[1..], errors);
        ([write] + rest.0, rest.1)
  }

  /** The run command after expansion, behind the stdin pipe when there is input. */
  function RunLine(c: LanguageConfig, input: string): string
    requires c.runCommand.Some?
  {
    var run := Expand(c.runCommand.value, c.fileName);
    if input != "" then StdinPipe + run else run
  }

  /** The compile command (when configured) and then the run command. */
  function Commands(c: LanguageConfig, input: string): (r: seq<string>)
    requires c.runCommand.Some?
    ensures |r| == if c.compileCommand.Some? then 2 else 1
    ensures r[|r| - 1] == RunLine(c, input)
    ensures c.compileCommand.Some? ==> r[0] == Expand(c.compileCommand.value, c.fileName)
  {
    (if c.compileCommand.Some? then [Expand(c.compileCommand.value, c.fileName)] else [])
    + [RunLine(c, input)]
  }

  /** The arguments every container is started with: removed on exit, one
      CPU, 128 MB, stdin open, the directory mounted and used at /workspace. */
  function DockerPrefix(tempDir: string): seq<string>
  {
    ["docker", "run", "--rm", "--cpus=1", "--memory=128m", "-i",
     "-v", tempDir + ":/workspace", "-w", "/workspace"]
  }

  /** The full argument vector: with `useEntrypoint === false` the commands
      follow the image as separate arguments; otherwise a shell entrypoint
      runs them joined by " && ". */
  function DockerArgv(c: LanguageConfig, tempDir: string, commands: seq<string>): (argv: seq<string>)
    ensures |argv| > 10 && argv[..10] == DockerPrefix(tempDir)
    ensures c.useEntrypoint == Some(false) ==> argv[10] == c.image && argv[11..] == commands
    ensures c.useEntrypoint != Some(false) ==>
              argv[10..] == ["--entrypoint", "/bin/sh", c.image, "-c", Join(commands, " && ")]
  {
    if c.useEntrypoint == Some(false) then
      DockerPrefix(tempDir) + [c.image] + commands
    else
      DockerPrefix(tempDir) + ["--entrypoint", "/bin/sh", c.image, "-c", Join(commands, " && ")]
  }

  function CodeText(code: Option<int>): string
  {
    if code.Some? then IntToString(code.value) else "null"
  }

  /** The rejection of the process promise, if any. */
  function ProcessError(p: ProcessEnd): Option<string>
  {
    match p
    case Closed(code, _, _) =>
      if code == Some(0) then None else Some(ExitedWithCode + CodeText(code))
    case SpawnFailed(message, _, _) => Some(SpawnFailure + message)
  }

  /** The error `catch` rethrows, and what it logs first. */
  function FailureMessage(error: string, stdout: string, stderr: string): string
  {
    "Execution failed: " + error + "\nStderr: " + stderr + "\nStdout: " + stdout
  }

  function FailureLog(error: string, stdout: string, stderr: string): seq<Effect>
  {
    [Log("[ERROR] Execution failed: " + error), Log("[ERROR] Stdout: " + stdout),
     Log("[ERROR] Stderr: " + stderr)]
  }

  /** The `finally` block: remove the directory; a failure is only logged. */
  function Cleanup(dir: string, w: World): seq<Effect>
  {
    [RemoveDir(dir)]
    + (if w.rmError.Some? then [Log(DeleteFailed + w.rmError.value)] else [])
  }

  /** The body of `try`, with its `catch`: writes, command construction,
      the process, and the mapping of its end. */
  function Attempt(language: string, c: LanguageConfig, code: string, input: string, dir: string, w: World): (r: Run)
    ensures r.outcome.Output? <==> && WriteFiles(dir, WorkspaceFiles(language, c, code, input), w.writeErrors).1.None?
                                   && c.runCommand.Some? && ProcessError(w.process).None?
    ensures r.outcome.Output? ==> r.outcome.output == Trim(w.process.stdout)
    ensures forall e :: e in r.effects ==> !e.MakeDir? && !e.RemoveDir?
  {
    var written := WriteFiles(dir, WorkspaceFiles(language, c, code, input), w.writeErrors);
    if written.1.Some? then
      Failed(written.0, written.1.value, "", "")
    else if c.runCommand.None? then
      Failed(written.0, UndefinedReplace, "", "")
    else
      var launch := written.0 + Launch(c, dir, input);
      var p := w.process;
      if ProcessError(p).None? then Run(Output(Trim(p.stdout)), launch)
      else Failed(launch, ProcessError(p).value, p.stdout, p.stderr)
  }

  /** The debug line and the spawn of the container. */
  function Launch(c: LanguageConfig, dir: string, input: string): seq<Effect>
    requires c.runCommand.Some?
  {
    var argv := DockerArgv(c, dir, Commands(c, input));
    [Log(DebugCommand + Join(argv, " ")), Spawn(argv)]
  }

  /** What `catch` makes of an error after the effects `before`. */
  function Failed(before: seq<Effect>, error: string, stdout: string, stderr: string): Run
  {
    Run(Thrown(FailureMessage(error, stdout, stderr)), before + FailureLog(error, stdout, stderr))
  }

  /** `executeInDocker({language, code, stdin})`, as its outcome and the
      effects it asks of the host. */
  function Execution(cwd: string, language: string, code: string, stdin: Option<string>,
                     sessionId: string, w: World): (r: Run)
    ensures Lookup(language).None? ==> r == Run(Thrown(UnsupportedLanguage + language), [])
    ensures Lookup(language).Some? ==> |r.effects| > 0 && r.effects[0] == MakeDir(TempDir(cwd, sessionId))
    ensures r.outcome.Output? ==> r.outcome.output == Trim(w.process.stdout)
  {
    match Lookup(language)
    case None => Run(Thrown(UnsupportedLanguage + language), [])
    case Some(c) => Session(language, c, code, InputOf(stdin), TempDir(cwd, sessionId), w)
  }

  /** Everything after the lookup: create the directory, then `try`/`catch`
      and `finally`. */
  function Session(language: string, c: LanguageConfig, code: string, input: string, dir: string, w: World): (r: Run)
    ensures |r.effects| > 0 && r.effects[0] == MakeDir(dir)
    ensures w.mkdirError.Some? ==> r == Run(Thrown(w.mkdirError.value), [MakeDir(dir)])
    ensures w.mkdirError.None? ==> r.outcome == Attempt(language, c, code, input, dir, w).outcome
                                   && |r.effects| > |Cleanup(dir, w)|
                                   && r.effects[|r.effects| - |Cleanup(dir, w)|..] == Cleanup(dir, w)
    ensures MakeDir(dir) !in r.effects[1..]
  {
    if w.mkdirError.Some? then
      Run(Thrown(w.mkdirError.value), [MakeDir(dir)])
    else
      var body := Attempt(language, c, code, input, dir, w);
      var e := [MakeDir(dir)] + body.effects + Cleanup(dir, w);
      assert MakeDir(dir) !in body.effects && MakeDir(dir) !in Cleanup(dir, w);
      assert e[1..] == body.effects + Cleanup(dir, w);
      assert e[|e| - |Cleanup(dir, w)|..] == Cleanup(dir, w);
      Run(body.outcome, e)
  }

  /** The host the executor runs on: the directories that exist and the
      effects requested so far. */
  class Host {
    const cwd: string
    var dirs: set<string>
    var effects: seq<Effect>

    constructor (cwd: string, dirs: set<string>)
      ensures this.cwd == cwd && this.dirs == dirs && effects == []
    {
      this.cwd := cwd;
      this.dirs := dirs;
      effects := [];
    }

    /** `fs.writeFile(path.join(dir, name), content)`. */
    method Write(dir: string, name: string, content: Body, w: World) returns (error: Option<string>)
      modifies this`effects
      ensures effects == old(effects) + [WriteFile(PathIn(dir, name), content)]
      ensures error == if name in w.writeErrors then Some(w.writeErrors[name]) else None
    {
      effects := effects + [WriteFile(PathIn(dir, name), content)];
      error := if name in w.writeErrors then Some(w.writeErrors[name]) else None;
    }

    /** The writes of `try`: the source, the C# project descriptor, the input. */
    method WriteWorkspace(dir: string, language: string, c: LanguageConfig, code: string, input: string, w: World)
      returns (error: Option<string>)
      modifies this`effects
      ensures effects == old(effects) + WriteFiles(dir, WorkspaceFiles(language, c, code, input), w.writeErrors).0
      ensures error == WriteFiles(dir, WorkspaceFiles(language, c, code, input), w.writeErrors).1
    {
      ghost var csproj := if language == "csharp" then [(ProjectFile, ProjectDescriptor)] else [];
      ghost var stdinFile := if input != "" then [(InputFile, Verbatim(input))] else [];
      assert WorkspaceFiles(language, c, code, input) == [(c.fileName, Verbatim(code))] + (csproj + stdinFile);
      WriteFilesCons(dir, (c.fileName, Verbatim(code)), csproj + stdinFile, w.writeErrors);
      error := Write(dir, c.fileName, Verbatim(code), w);
      if error.None? && language == "csharp" {
        WriteFilesCons(dir, (ProjectFile, ProjectDescriptor), stdinFile, w.writeErrors);
        error := Write(dir, ProjectFile, ProjectDescriptor, w);
      }
      if error.None? && input != "" {
        WriteFilesCons(dir, (InputFile, Verbatim(input)), [], w.writeErrors);
        error := Write(dir, InputFile, Verbatim(input), w);
      }
    }

    /** Builds the command list and the argument vector, logs and spawns the
        container, and waits for its end. */
    method Start(c: LanguageConfig, dir: string, input: string, w: World)
      returns (error: Option<string>, stdout: string, stderr: string)
      requires c.runCommand.Some?
      modifies this`effects
      ensures effects == old(effects) + Launch(c, dir, input)
      ensures error == ProcessError(w.process)
      ensures stdout == w.process.stdout && stderr == w.process.stderr
    {
      var commands: seq<string> := [];
      if c.compileCommand.Some? {
        commands := commands + [Expand(c.compileCommand.value, c.fileName)];
      }
      var runCmd := Expand(c.runCommand.value, c.fileName);
      if input != "" {
        runCmd := StdinPipe + runCmd;
      }
      commands := commands + [runCmd];
      assert commands == Commands(c, input);
      var commandString := Join(commands, " && ");
      var dockerCommand: seq<string>;
      if c.useEntrypoint == Some(false) {
        dockerCommand := DockerPrefix(dir) + [c.image] + commands;
      } else {
        dockerCommand := DockerPrefix(dir) + ["--entrypoint", "/bin/sh", c.image, "-c", commandString];
      }
      effects := effects + [Log(DebugCommand + Join(dockerCommand, " ")), Spawn(dockerCommand)];
      stdout, stderr := w.process.stdout, w.process.stderr;
      error := ProcessError(w.process);
    }

    /** The `try` block and its `catch`. */
    method TryRun(language: string, c: LanguageConfig, code: string, input: string, dir: string, w: World)
      returns (r: Outcome)
      modifies this`effects
      ensures r == Attempt(language, c, code, input, dir, w).outcome
      ensures effects == old(effects) + Attempt(language, c, code, input, dir, w).effects
    {
      var stdout, stderr := "", "";
      var error := WriteWorkspace(dir, language, c, code, input, w);
      ghost var done := WriteFiles(dir, WorkspaceFiles(language, c, code, input), w.writeErrors).0;
      if error.None? {
        if c.runCommand.None? {
          error := Some(UndefinedReplace);
        } else {
          error, stdout, stderr := Start(c, dir, input, w);
          Associate3(old(effects), done, Launch(c, dir, input));
          done := done + Launch(c, dir, input);
        }
      }
      assert effects == old(effects) + done;
      if error.None? {
        r := Output(Trim(stdout));
      } else {
        Associate3(old(effects), done, FailureLog(error.value, stdout, stderr));
        effects := effects + FailureLog(error.value, stdout, stderr);
        r := Thrown(FailureMessage(error.value, stdout, stderr));
      }
    }

    /** The temporary directory's life: created, used, removed. */
    method InSession(language: string, c: LanguageConfig, code: string, input: string, dir: string, w: World)
      returns (r: Outcome)
      modifies this
      ensures r == Session(language, c, code, input, dir, w).outcome
      ensures effects == old(effects) + Session(language, c, code, input, dir, w).effects
      ensures w.mkdirError.Some? ==> dirs == old(dirs)
      ensures w.mkdirError.None? && w.rmError.None? ==> dirs == old(dirs) - {dir}
      ensures w.mkdirError.None? && w.rmError.Some? ==> dirs == old(dirs) + {dir}
    {
      effects := effects + [MakeDir(dir)];
      if w.mkdirError.Some? {
        return Thrown(w.mkdirError.value);
      }
      dirs := dirs + {dir};
      ghost var started := effects;
      r := TryRun(language, c, code, input, dir, w);
      ghost var tried := effects;
      // finally
      effects := effects + [RemoveDir(dir)];
      if w.rmError.None? {
        AddThenRemove(old(dirs), dir);
        dirs := dirs - {dir};
      } else {
        effects := effects + [Log(DeleteFailed + w.rmError.value)];
      }
      ghost var body := Attempt(language, c, code, input, dir, w).effects;
      assert effects == tried + Cleanup(dir, w);
      assert tried == old(effects) + [MakeDir(dir)] + body;
      Associate(old(effects), [MakeDir(dir)], body, Cleanup(dir, w));
    }

    method ExecuteInDocker(language: string, code: string, stdin: Option<string>, sessionId: string, w: World)
      returns (r: Outcome)
      modifies this
      ensures r == Execution(cwd, language, code, stdin, sessionId, w).outcome
      ensures effects == old(effects) + Execution(cwd, language, code, stdin, sessionId, w).effects
      ensures dirs == if Lookup(language).None? || w.mkdirError.Some? then old(dirs)
                      else if w.rmError.None? then old(dirs) - {TempDir(cwd, sessionId)}
                      else old(dirs) + {TempDir(cwd, sessionId)}
    {
      var config := Lookup(language);
      if config.None? {
        return Thrown(UnsupportedLanguage + language);
      }
      r := InSession(language, config.value, code, InputOf(stdin), TempDir(cwd, sessionId), w);
    }
  }

  lemma WriteFilesCons(dir: string, f: (string, Body), rest: seq<(string, Body)>, errors: map<string, string>)
    ensures WriteFiles(dir, [f] + rest, errors)
            == if f.0 in errors then ([WriteFile(PathIn(dir, f.0), f.1)], Some(errors[f.0]))
               else ([WriteFile(PathIn(dir, f.0), f.1)] + WriteFiles(dir, rest, errors).0, WriteFiles(dir, rest, errors).1)
  {
    assert ([f] + rest)[1..] == rest;
  }

  lemma Associate3(a: seq<Effect>, b: seq<Effect>, c: seq<Effect>)
    ensures a + b + c == a + (b + c)
  {
  }

  lemma AddThenRemove(a: set<string>, d: string)
    ensures a + {d} - {d} == a - {d}
  {
  }

  lemma Associate(a: seq<Effect>, b: seq<Effect>, c: seq<Effect>, d: seq<Effect>)
    ensures a + b + c + d == a + (b + c + d)
  {
  }

  /** Writing stops at the first file whose write fails, after attempting
      it, and reports that file's error; it reports none exactly when no
      file fails. */
  lemma {:induction false} FirstFailingWrite(dir: string, files: seq<(string, Body)>, errors: map<string, string>)
    ensures var (writes, error) := WriteFiles(dir, files, errors);
            && (error.None? <==> forall k :: 0 <= k < |files| ==> files[k].0 !in errors)
            && (error.Some? ==>
                  && |writes| >= 1
                  && files[|writes| - 1].0 in errors
                  && error.value == errors[files[|writes| - 1].0]
                  && forall k :: 0 <= k < |writes| - 1 ==> files[k].0 !in errors)
  {
    if files != [] {
      var write := WriteFile(PathIn(dir, files[0].0), files[0].1);
      var rest := WriteFiles(dir, files[1..], errors);
      FirstFailingWrite(dir, files[1..], errors);
      if files[0].0 !in errors {
        assert WriteFiles(dir, files, errors) == ([write] + rest.0, rest.1);
        forall k | 1 <= k < |files| ensures files[k] == files[1..][k - 1] {}
      } else {
        assert WriteFiles(dir, files, errors) == ([write], Some(errors[files[0].0]));
      }
    }
  }

  /** The files of a registry language have distinct names: the source file
      is never `Program.csproj` or `input.txt`, so nothing the executor writes
      overwrites another file. The descriptor is there exactly for csharp and
      the input file exactly when there is input. */
  lemma WorkspaceLayout(language: string, code: string, input: string)
    requires language in Registry
    ensures var files := WorkspaceFiles(language, Registry[language], code, input);
            && files[0] == (Registry[language].fileName, Verbatim(code))
            && (forall i, j :: 0 <= i < j < |files| ==> files[i].0 != files[j].0)
            && ((exists k :: 0 <= k < |files| && files[k].0 == ProjectFile) <==> language == "csharp")
            && ((exists k :: 0 <= k < |files| && files[k] == (InputFile, Verbatim(input))) <==> input != "")
  {
    var c := Registry[language];
    ReservedNamesUnused(language);
    var files := WorkspaceFiles(language, c, code, input);
    if language == "csharp" {
      assert files[1].0 == ProjectFile;
    }
    if input != "" {
      assert files[|files| - 1] == (InputFile, Verbatim(input));
    }
  }

  /** No registry language names its source `Program.csproj` or `input.txt`. */
  lemma ReservedNamesUnused(language: string)
    requires language in Registry
    ensures Registry[language].fileName != ProjectFile
    ensures Registry[language].fileName != InputFile
  {
  }

  /** No write the executor makes for this request fails. */
  predicate WritesSucceed(language: string, c: LanguageConfig, input: string, w: World)
  {
    && c.fileName !in w.writeErrors
    && (language == "csharp" ==> ProjectFile !in w.writeErrors)
    && (input != "" ==> InputFile !in w.writeErrors)
  }

  lemma WritesSucceedIff(dir: string, language: string, c: LanguageConfig, code: string, input: string, w: World)
    ensures WriteFiles(dir, WorkspaceFiles(language, c, code, input), w.writeErrors).1.None?
            <==> WritesSucceed(language, c, input, w)
  {
    var files := WorkspaceFiles(language, c, code, input);
    FirstFailingWrite(dir, files, w.writeErrors);
    if language == "csharp" {
      assert files[1].0 == ProjectFile;
    }
    if input != "" {
      assert files[|files| - 1].0 == InputFile;
    }
  }

  /** An unknown language is rejected before anything is created. */
  lemma UnsupportedLanguageCreatesNothing(cwd: string, language: string, code: string, stdin: Option<string>,
                                          sessionId: string, w: World)
    requires language !in Registry
    ensures Execution(cwd, language, code, stdin, sessionId, w)
            == Run(Thrown(UnsupportedLanguage + language), [])
  {
  }

  /** The execution resolves exactly when the language is known, the
      directory and every file could be created, and the container exited
      with status 0; it then resolves to the trimmed stdout. */
  lemma SucceedsIff(cwd: string, language: string, code: string, stdin: Option<string>,
                    sessionId: string, w: World)
    ensures Execution(cwd, language, code, stdin, sessionId, w).outcome.Output?
            <==> && language in Registry && w.mkdirError.None?
                 && WritesSucceed(language, Registry[language], InputOf(stdin), w)
                 && w.process.Closed? && w.process.code == Some(0)
    ensures Execution(cwd, language, code, stdin, sessionId, w).outcome.Output?
            ==> Execution(cwd, language, code, stdin, sessionId, w).outcome.output == Trim(w.process.stdout)
  {
    if language in Registry {
      var c := Registry[language];
      RunCommandAlwaysPresent(language);
      WritesSucceedIff(TempDir(cwd, sessionId), language, c, code, InputOf(stdin), w);
    }
  }

  /** When the container fails, the thrown error names the reason and
      carries everything the process wrote to stdout and stderr. */
  lemma FailureCarriesStreams(cwd: string, language: string, code: string, stdin: Option<string>,
                              sessionId: string, w: World)
    requires language in Registry && w.mkdirError.None?
    requires WritesSucceed(language, Registry[language], InputOf(stdin), w)
    requires ProcessError(w.process).Some?
    ensures var run := Execution(cwd, language, code, stdin, sessionId, w);
            var error := ProcessError(w.process).value;
            && run.outcome == Thrown(FailureMessage(error, w.process.stdout, w.process.stderr))
            && Contains(run.outcome.message, w.process.stdout)
            && Contains(run.outcome.message, w.process.stderr)
            && Contains(run.outcome.message, error)
  {
    var c := Registry[language];
    var dir := TempDir(cwd, sessionId);
    var input := InputOf(stdin);
    RunCommandAlwaysPresent(language);
    WritesSucceedIff(dir, language, c, code, input, w);
    var error := ProcessError(w.process).value;
    var out, err := w.process.stdout, w.process.stderr;
    FailureMessageMentions(error, out, err);
  }

  /** The rethrown error mentions the reason, stderr and stdout. */
  lemma FailureMessageMentions(error: string, stdout: string, stderr: string)
    ensures Contains(FailureMessage(error, stdout, stderr), error)
    ensures Contains(FailureMessage(error, stdout, stderr), stderr)
    ensures Contains(FailureMessage(error, stdout, stderr), stdout)
  {
    var m := FailureMessage(error, stdout, stderr);
    ContainsInfix("Execution failed: " + error + "\nStderr: " + stderr + "\nStdout: ", stdout, "");
    assert m == "Execution failed: " + error + "\nStderr: " + stderr + "\nStdout: " + stdout + "";
    ContainsInfix("Execution failed: " + error + "\nStderr: ", stderr, "\nStdout: " + stdout);
    assert m == "Execution failed: " + error + "\nStderr: " + stderr + ("\nStdout: " + stdout);
    ContainsInfix("Execution failed: ", error, "\nStderr: " + stderr + "\nStdout: " + stdout);
    assert m == "Execution failed: " + error + ("\nStderr: " + stderr + "\nStdout: " + stdout);
  }

  /** Once the directory exists it is removed on every path, successful or
      not, and nothing but the report of a failed removal follows. */
  lemma TempDirRemovedLast(cwd: string, language: string, code: string, stdin: Option<string>,
                           sessionId: string, w: World)
    requires language in Registry && w.mkdirError.None?
    ensures var e := Execution(cwd, language, code, stdin, sessionId, w).effects;
            var dir := TempDir(cwd, sessionId);
            && |e| >= 2 && e[0] == MakeDir(dir)
            && (w.rmError.None? ==> e[|e| - 1] == RemoveDir(dir))
            && (w.rmError.Some? ==> |e| >= 3 && e[|e| - 2] == RemoveDir(dir)
                                    && e[|e| - 1] == Log(DeleteFailed + w.rmError.value))
  {
  }

  /** A failed removal is logged, never reported: the outcome is the same
      whatever `rm` does. */
  lemma OutcomeIgnoresRemoval(cwd: string, language: string, code: string, stdin: Option<string>,
                              sessionId: string, w: World, rmError: Option<string>)
    ensures Execution(cwd, language, code, stdin, sessionId, w).outcome
            == Execution(cwd, language, code, stdin, sessionId, w.(rmError := rmError)).outcome
  {
  }

  /** Every container runs with the same limits and mount; solidity's
      commands are passed to the image's own entrypoint, every other
      language's are joined into one `/bin/sh -c` line, compile step first. */
  lemma ContainerInvocation(language: string, dir: string, input: string)
    requires language in Registry
    ensures var c := Registry[language];
            var commands := Commands(c, input);
            var argv := DockerArgv(c, dir, commands);
            && argv[..10] == DockerPrefix(dir)
            && (language == "solidity" ==> argv[10..] == [c.image] + commands && |commands| == 2)
            && (language != "solidity" ==>
                  argv[10..] == ["--entrypoint", "/bin/sh", c.image, "-c", Join(commands, " && ")])
            && Join(commands, " && ") == if c.compileCommand.Some?
                                         then Expand(c.compileCommand.value, c.fileName) + " && " + RunLine(c, input)
                                         else RunLine(c, input)
  {
    var c := Registry[language];
    RunCommandAlwaysPresent(language);
    EntrypointFlags(language);
    CompiledLanguages(language);
    var commands := Commands(c, input);
    var argv := DockerArgv(c, dir, commands);
    assert argv[..10] == DockerPrefix(dir);
  }

  /** The run command is behind `cat /workspace/input.txt | ` exactly when
      there is input: no registry run command starts that way by itself. */
  lemma RunLinePipedIff(language: string, input: string)
    requires language in Registry
    ensures var line := RunLine(Registry[language], input);
            (|StdinPipe| <= |line| && line[..|StdinPipe|] == StdinPipe) <==> input != ""
  {
    var c := Registry[language];
    RunCommandAlwaysPresent(language);
    if input == "" {
      var line := Expand(c.runCommand.value, c.fileName);
      if language == "solidity" {
        assert c.runCommand.value == "cat /workspace/" + CodeFilePath + "";
        ExpandCodeFilePath("cat /workspace/", "", c.fileName);
        assert |line| < |StdinPipe|;
      } else {
        RunTemplateHead(language);
        ExpandKeepsHead(c.runCommand.value, c.fileName);
        assert line[0] != StdinPipe[0];
      }
    }
  }

  /** Every run template but solidity's starts with a character other than
      `{` and `c`. */
  lemma RunTemplateHead(language: string)
    requires language in Registry && language != "solidity"
    ensures var t := Registry[language].runCommand;
            t.Some? && |t.value| > 0 && t.value[0] != '{' && t.value[0] != 'c'
  {
  }

  /** Expansion keeps a first character that cannot open a placeholder. */
  lemma ExpandKeepsHead(t: string, fileName: string)
    requires |t| > 0 && t[0] != '{'
    ensures |Expand(t, fileName)| > 0 && Expand(t, fileName)[0] == t[0]
  {
  }
}
