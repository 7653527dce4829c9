/**
 * The main loop (`run` in main.go): validate the options, fetch the document, open the output
 * target, then hand the document to exactly one renderer, or to the command launcher.
 */
module Pipeline {
  import opened Wrappers
  import opened Strings
  import opened Cli
  import opened Io
  import opened Conflicts
  import opened SecretManager
  import opened Render
  import opened Launch

  datatype Mode = JsonMode | RawMode | AshMode | BashMode | CommandMode

  /**
   * The branch `run` takes, trying json, raw, ash and bash in that order. Command injection is
   * chosen exactly when no format flag is set, and for options with at most one format flag the
   * mode is the one that flag asks for.
   */
  function SelectMode(o: Options): (m: Mode)
    ensures m == CommandMode <==> !(o.formatJson || o.formatRaw || o.formatAsh || o.formatBash)
    ensures o.formatJson ==> m == JsonMode
    ensures !o.formatJson && o.formatRaw ==> m == RawMode
    ensures !o.formatJson && !o.formatRaw && o.formatAsh ==> m == AshMode
    ensures !o.formatJson && !o.formatRaw && !o.formatAsh && o.formatBash ==> m == BashMode
    ensures AtMostOneFormat(o) ==>
              && (m == JsonMode <==> o.formatJson) && (m == RawMode <==> o.formatRaw)
              && (m == AshMode <==> o.formatAsh) && (m == BashMode <==> o.formatBash)
  {
    if o.formatJson then JsonMode
    else if o.formatRaw then RawMode
    else if o.formatAsh then AshMode
    else if o.formatBash then BashMode
    else CommandMode
  }

  /** Standard output when the option is blank or `-`, otherwise the file it names. */
  function OutputTarget(name: string): (t: Target)
    ensures t == Stdout <==> IsBlank(name) || name == "-"
    ensures t.File? ==> t.path == name
  {
    if !IsBlank(name) && name != "-" then File(name) else Stdout
  }

  /**
   * The state once the target is open: standard output needs no opening; a named file exists
   * and is empty, and nothing else (standard output, requests, processes, other files) changes.
   */
  function Opened(t: Target, s: WorldState): (s': WorldState)
    ensures t == Stdout ==> s' == s
    ensures t.File? ==> t.path in s'.files && s'.files[t.path] == []
    ensures t.File? ==> s'.stdout == s.stdout && s'.requests == s.requests && s'.started == s.started
    ensures t.File? ==> s'.files.Keys == s.files.Keys + {t.path}
    ensures t.File? ==> forall p :: p in s.files && p != t.path ==> s'.files[p] == s.files[p]
  {
    if t.File? then Truncate(s, t.path) else s
  }

  /**
   * The one branch that runs for a mode, acting on an open target: no mode sends a request, a
   * renderer starts nothing and touches no other target, command injection writes nothing, and
   * raw mode copies the document unchanged.
   */
  function Dispatch(m: Mode, o: Options, doc: string, t: Target, env: Env, s: WorldState): (step: (Outcome, WorldState))
    ensures step.1.requests == s.requests
    ensures m != CommandMode ==>
              step.1.started == s.started && forall u :: u != t ==> Contents(step.1, u) == Contents(s, u)
    ensures m == CommandMode ==> step.1.stdout == s.stdout && step.1.files == s.files
    ensures m == RawMode ==> step.0 == Ok && Contents(step.1, t) == Contents(s, t) + doc
  {
    match m
    case JsonMode => Emit(JsonOutput(doc, env), t, s)
    case RawMode => (Ok, Append(s, t, doc))
    case AshMode => Emit(ShellOutput(doc, env, AshFormatter), t, s)
    case BashMode => Emit(ShellOutput(doc, env, BashFormatter), t, s)
    case CommandMode => LaunchSpec(doc, o.args, o.preserveEnv, env, s)
  }

  /**
   * What one invocation of `run` does to the world, and how it ends: a conflict changes nothing;
   * past validation exactly the fetch's requests are sent; success needs a successful fetch; a
   * rendering mode starts nothing.
   */
  function RunSpec(o: Options, env: Env, s: WorldState): (step: (Outcome, WorldState))
    ensures HasConflictingOptions(o).0 ==> step == (Exit(HasConflictingOptions(o).1.value, 1), s)
    ensures !HasConflictingOptions(o).0 ==> step.1.requests == s.requests + FetchRequests(o, env)
    ensures step.0 == Ok ==> !HasConflictingOptions(o).0 && FetchResult(o, env).Success?
    ensures SelectMode(o) != CommandMode ==> step.1.started == s.started
  {
    var conflict := HasConflictingOptions(o);
    if conflict.0 then (Exit(conflict.1.value, 1), s)
    else
      var fetched := s.(requests := s.requests + FetchRequests(o, env));
      match FetchResult(o, env)
      case Failure(e) => (Error(e), fetched)
      case Success(doc) =>
        var t := OutputTarget(o.outputFile);
        if t.File? && env.create(t.path).Some? then (Error(env.create(t.path).value), fetched)
        else Dispatch(SelectMode(o), o, doc, t, env, Opened(t, fetched))
  }

  /**
   * The process exit status an outcome leads to: 0 for success, the code an exit coder carries
   * (a conflict, or a child's own non-zero status), and 1 for any other error or a fatal log.
   * The operating system keeps the low 8 bits of the code passed to os.Exit, so a child killed
   * by a signal (an exit error with code -1) ends the tool with status 255.
   */
  function ExitCode(r: Outcome): (code: int)
    ensures 0 <= code < 256
    ensures code == 0 <==> r == Ok || (r.Exit? && r.code % 256 == 0)
    ensures r.Exit? && 0 <= r.code < 256 ==> code == r.code
    ensures r.Exit? ==> code == r.code % 256
    ensures r.Error? || r.Fatal? ==> code == 1
  {
    match r
    case Ok => 0
    case Exit(_, c) => c % 256
    case Error(_) => 1
    case Fatal(_) => 1
  }

  /** run. */
  method Run(o: Options, env: Env, world: World) returns (r: Outcome)
    modifies world
    ensures (r, world.View()) == RunSpec(o, env, old(world.View()))
  {
    var buf := new Buffer();

    var conflict := HasConflictingOptions(o);
    if conflict.0 {
      return Exit(conflict.1.value, 1);
    }

    ghost var before := world.View();
    var fetchErr := FetchSecretDocument(o, env, world, buf);
    if fetchErr.Some? {
      return Error(fetchErr.value);
    }
    ghost var fetched := before.(requests := before.requests + FetchRequests(o, env));
    assert world.View() == fetched;
    assert buf.data == FetchResult(o, env).value;

    var target := OutputTarget(o.outputFile);
    if target.File? {
      var createErr := world.Create(target.path, env);
      if createErr.Some? {
        return Error(createErr.value);
      }
    }
    assert world.View() == Opened(target, fetched);

    match SelectMode(o)
    case JsonMode =>
      r := OutputJson(buf.data, world, target, env);
    case RawMode =>
      r := OutputRaw(buf.data, world, target);
    case AshMode =>
      r := OutputAshEnv(buf.data, world, target, env);
    case BashMode =>
      r := OutputBashEnv(buf.data, world, target, env);
    case CommandMode =>
      r := RunCommand(buf.data, o.args, o.preserveEnv, env, world);
  }

  /** A conflict ends the run with exit code 1 before anything is fetched, created, written or started. */
  lemma ConflictStopsBeforeFetch(o: Options, env: Env, s: WorldState)
    requires HasConflictingOptions(o).0
    ensures RunSpec(o, env, s) == (Exit(HasConflictingOptions(o).1.value, 1), s)
    ensures ExitCode(RunSpec(o, env, s).0) == 1
  {
  }

  /** Valid options pick the mode their one format flag names, or command injection without one. */
  lemma ValidOptionsSelectRequestedMode(o: Options)
    requires !HasConflictingOptions(o).0
    ensures ExactlyOneKeySource(o)
    ensures SelectMode(o) == JsonMode <==> o.formatJson
    ensures SelectMode(o) == RawMode <==> o.formatRaw
    ensures SelectMode(o) == AshMode <==> o.formatAsh
    ensures SelectMode(o) == BashMode <==> o.formatBash
  {
  }

  /** Past validation the secret store is asked once (unless the client cannot be created), and never again. */
  lemma FetchHappensOnce(o: Options, env: Env, s: WorldState)
    requires !HasConflictingOptions(o).0
    ensures RunSpec(o, env, s).1.requests == s.requests + FetchRequests(o, env)
  {
  }

  /** A failed fetch ends the run with its error; no file is created, nothing is written or started. */
  lemma FetchFailureStopsBeforeOutput(o: Options, env: Env, s: WorldState)
    requires !HasConflictingOptions(o).0 && FetchResult(o, env).Failure?
    ensures RunSpec(o, env, s) == (Error(FetchResult(o, env).error), s.(requests := s.requests + FetchRequests(o, env)))
  {
  }

  /** An output file that cannot be created ends the run before any renderer writes. */
  lemma CreateFailureStopsBeforeWrite(o: Options, env: Env, s: WorldState)
    requires !HasConflictingOptions(o).0 && FetchResult(o, env).Success?
    requires OutputTarget(o.outputFile).File? && env.create(o.outputFile).Some?
    ensures RunSpec(o, env, s).0 == Error(env.create(o.outputFile).value)
    ensures RunSpec(o, env, s).1.stdout == s.stdout
    ensures RunSpec(o, env, s).1.files == s.files
    ensures RunSpec(o, env, s).1.started == s.started
  {
  }

  /** Rendering modes never start a process. */
  lemma RenderersStartNothing(o: Options, env: Env, s: WorldState)
    requires SelectMode(o) != CommandMode
    ensures RunSpec(o, env, s).1.started == s.started
  {
  }

  /**
   * Command injection itself writes nothing to standard output (the child's own output is not
   * part of the modelled standard output); at most it creates the (empty) output file.
   */
  lemma CommandModeWritesNothing(o: Options, env: Env, s: WorldState)
    requires SelectMode(o) == CommandMode
    ensures RunSpec(o, env, s).1.stdout == s.stdout
    ensures RunSpec(o, env, s).1.files == s.files
         || (OutputTarget(o.outputFile).File? && RunSpec(o, env, s).1.files == s.files[o.outputFile := []])
  {
  }

  /** Raw mode echoes the stored payload and the newline the fetch appended, byte for byte. */
  lemma RawModeEchoesPayload(o: Options, env: Env, s: WorldState, payload: string)
    requires !HasConflictingOptions(o).0 && o.formatRaw
    requires env.connect(o.keyFile).None? && env.access(RequestName(o)) == Success(payload)
    requires OutputTarget(o.outputFile).File? ==> env.create(o.outputFile).None?
    ensures RunSpec(o, env, s).0 == Ok
    ensures OutputTarget(o.outputFile) == Stdout ==> RunSpec(o, env, s).1.stdout == s.stdout + payload + "\n"
    ensures OutputTarget(o.outputFile).File? ==>
              o.outputFile in RunSpec(o, env, s).1.files && RunSpec(o, env, s).1.files[o.outputFile] == payload + "\n"
  {
  }

  /**
   * Shell modes write one line per flattened entry, in order: standard output grows by the
   * entries each followed by a newline, and cutting a created file at newlines gives back the
   * entries the flattener produced with the mode's formatter.
   */
  lemma ShellModeWritesOneLinePerEntry(o: Options, env: Env, s: WorldState, data: Document, json: string)
    requires !HasConflictingOptions(o).0 && (o.formatAsh || o.formatBash)
    requires FetchResult(o, env).Success?
    requires OutputTarget(o.outputFile).File? ==> env.create(o.outputFile).None?
    requires env.unmarshal(FetchResult(o, env).value) == Success(data) && env.marshal(data) == Success(json)
    requires var entries := env.flatten(json, EnvironmentPrefix, if o.formatAsh then AshFormatter else BashFormatter);
             forall i :: 0 <= i < |entries| ==> '\n' !in entries[i]
    ensures RunSpec(o, env, s).0 == Ok
    ensures OutputTarget(o.outputFile) == Stdout ==>
              RunSpec(o, env, s).1.stdout
              == s.stdout + ShellText(env.flatten(json, EnvironmentPrefix, if o.formatAsh then AshFormatter else BashFormatter))
    ensures OutputTarget(o.outputFile).File? ==>
              && o.outputFile in RunSpec(o, env, s).1.files
              && Split(RunSpec(o, env, s).1.files[o.outputFile], '\n')
                 == env.flatten(json, EnvironmentPrefix, if o.formatAsh then AshFormatter else BashFormatter) + [[]]
  {
    var entries := env.flatten(json, EnvironmentPrefix, if o.formatAsh then AshFormatter else BashFormatter);
    ShellTextLines(entries);
    assert [] + ShellText(entries) == ShellText(entries);
  }

  /**
   * Shell modes write exactly the flattened entries, each followed by a newline, whatever the
   * entries hold (a multi-line value included): standard output grows by that text, or a created
   * file holds exactly it.
   */
  lemma ShellModeWritesEntries(o: Options, env: Env, s: WorldState, data: Document, json: string)
    requires !HasConflictingOptions(o).0 && (o.formatAsh || o.formatBash)
    requires FetchResult(o, env).Success?
    requires OutputTarget(o.outputFile).File? ==> env.create(o.outputFile).None?
    requires env.unmarshal(FetchResult(o, env).value) == Success(data) && env.marshal(data) == Success(json)
    ensures RunSpec(o, env, s).0 == Ok
    ensures OutputTarget(o.outputFile) == Stdout ==>
              RunSpec(o, env, s).1.stdout
              == s.stdout + ShellText(env.flatten(json, EnvironmentPrefix, if o.formatAsh then AshFormatter else BashFormatter))
    ensures OutputTarget(o.outputFile).File? ==>
              && o.outputFile in RunSpec(o, env, s).1.files
              && RunSpec(o, env, s).1.files[o.outputFile]
                 == ShellText(env.flatten(json, EnvironmentPrefix, if o.formatAsh then AshFormatter else BashFormatter))
  {
    var entries := env.flatten(json, EnvironmentPrefix, if o.formatAsh then AshFormatter else BashFormatter);
    assert [] + ShellText(entries) == ShellText(entries);
  }

  /**
   * Command injection starts one child: the first argument as the command, its environment the
   * inherited or empty base followed by the flattened entries; the run succeeds exactly when
   * waiting for the child succeeds, and a child that exits with a non-zero status passes that
   * status on as the exit status of the whole process.
   */
  lemma CommandModeStartsPreparedChild(o: Options, env: Env, s: WorldState, data: Document)
    requires !HasConflictingOptions(o).0 && SelectMode(o) == CommandMode
    requires FetchResult(o, env).Success? && |o.args| > 0
    requires OutputTarget(o.outputFile).File? ==> env.create(o.outputFile).None?
    requires env.unmarshal(FetchResult(o, env).value) == Success(data)
    requires env.start(PreparedCommand(data, o.args, o.preserveEnv, env)).None?
    ensures RunSpec(o, env, s).1.started == s.started + [PreparedCommand(data, o.args, o.preserveEnv, env)]
    ensures RunSpec(o, env, s).0 == Ok <==> env.wait(PreparedCommand(data, o.args, o.preserveEnv, env)).None?
    ensures var w := env.wait(PreparedCommand(data, o.args, o.preserveEnv, env));
            w.Some? && w.value.ChildExited? ==> ExitCode(RunSpec(o, env, s).0) == w.value.code % 256
    ensures var w := env.wait(PreparedCommand(data, o.args, o.preserveEnv, env));
            w.Some? && w.value.WaitFailed? ==> ExitCode(RunSpec(o, env, s).0) == 1
  {
  }
}
