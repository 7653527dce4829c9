/**
 * Command injection (runCommand and convertMapToKeyValueList in main.go): split the positional
 * arguments into a command and its arguments, build the child environment from an empty or
 * inherited base followed by the flattened entries, then start the child and wait for it.
 */
module Launch {
  import opened Wrappers
  import opened Io
  import opened Render

  const InvalidEnvironmentMap := "invalid environment map"

  /**
   * convertMapToKeyValueList as the Go pair (entries, err): a nil map or a JSON encoding failure
   * gives no entries and an error, otherwise the document flattened with the ash formatter.
   */
  function ConvertMapToKeyValueList(data: Document, env: Env): (r: (seq<string>, Option<string>))
    ensures r.1.Some? ==> r.0 == []
    ensures data.NilMap? ==> r.1 == Some(InvalidEnvironmentMap)
    ensures r.1.None? <==> data.Map? && env.marshal(data).Success?
    ensures r.1.None? ==> r.0 == env.flatten(env.marshal(data).value, EnvironmentPrefix, AshFormatter)
  {
    if data.NilMap? then ([], Some(InvalidEnvironmentMap))
    else
      match env.marshal(data)
      case Failure(e) => ([], Some(e))
      case Success(json) => (env.flatten(json, EnvironmentPrefix, AshFormatter), None)
  }

  /**
   * The command is the first argument; the remaining arguments are passed on only when the
   * command NAME is longer than one character (the length test is on the first element).
   */
  function CommandLine(argv: seq<string>): (r: (string, seq<string>))
    requires |argv| > 0
    ensures r.0 == argv[0]
    ensures |argv[0]| > 1 ==> r.1 == argv[1..]
    ensures |argv[0]| <= 1 ==> r.1 == []
  {
    if |argv[0]| > 1 then (argv[0], argv[1..]) else (argv[0], [])
  }

  /** With a command of one character or none, every argument after it is dropped. */
  lemma ShortCommandDropsArguments(argv: seq<string>)
    requires |argv| > 1
    ensures CommandLine(argv).1 == argv[1..] <==> |argv[0]| > 1
  {
    assert |argv[1..]| > 0;
  }

  /** The single-letter command `w -h` runs as plain `w`. */
  lemma ShortCommandExample()
    ensures CommandLine(["w", "-h"]) == ("w", [])
  {
  }

  /**
   * The child environment: the inherited environment when preserving it, else nothing, followed
   * by every entry in order; nothing is merged or removed, so duplicates survive.
   */
  function ChildEnvironment(preserve: bool, parent: seq<string>, entries: seq<string>): (e: seq<string>)
    ensures |e| == (if preserve then |parent| else 0) + |entries|
    ensures preserve ==> e[..|parent|] == parent
    ensures e[|e| - |entries|..] == entries
  {
    (if preserve then parent else []) + entries
  }

  /**
   * The child process runCommand prepares for a parsed document: the command line split as
   * above, and the base environment followed by the flattened entries, or by nothing when the
   * conversion failed.
   */
  function PreparedCommand(data: Document, argv: seq<string>, preserve: bool, env: Env): (cmd: Command)
    requires |argv| > 0
    ensures cmd.name == argv[0]
    ensures |argv[0]| > 1 ==> cmd.args == argv[1..]
    ensures |argv[0]| <= 1 ==> cmd.args == []
    ensures ConvertMapToKeyValueList(data, env).1.Some? ==>
              cmd.env == (if preserve then env.environ else [])
    ensures ConvertMapToKeyValueList(data, env).1.None? ==>
              cmd.env == (if preserve then env.environ else [])
                         + env.flatten(env.marshal(data).value, EnvironmentPrefix, AshFormatter)
  {
    var line := CommandLine(argv);
    Command(line.0, line.1, ChildEnvironment(preserve, env.environ, ConvertMapToKeyValueList(data, env).0))
  }

  /**
   * How a finished wait ends the invocation: status 0 is success, a child that exited with a
   * non-zero status passes its own exit code on, any other wait failure is a plain error.
   */
  function WaitOutcome(w: Option<WaitError>): (r: Outcome)
    ensures r == Ok <==> w.None?
    ensures r.Exit? <==> w.Some? && w.value.ChildExited?
    ensures r.Exit? ==> r.code == w.value.code && r.message == w.value.message
    ensures r.Error? ==> w == Some(WaitFailed(r.message))
    ensures !r.Fatal?
  {
    match w
    case None => Ok
    case Some(ChildExited(m, c)) => Exit(m, c)
    case Some(WaitFailed(m)) => Error(m)
  }

  /**
   * The effect of runCommand: nothing without a command; a document that does not parse is
   * fatal before anything starts; a start failure starts nothing; once the child has started,
   * the invocation ends as waiting for it does.
   */
  function LaunchSpec(doc: string, argv: seq<string>, preserve: bool, env: Env, s: WorldState): (step: (Outcome, WorldState))
    ensures argv == [] ==> step == (Ok, s)
    ensures step.1.stdout == s.stdout && step.1.files == s.files && step.1.requests == s.requests
    ensures |argv| > 0 && env.unmarshal(doc).Failure? ==> step == (Fatal(env.unmarshal(doc).error), s)
    ensures |argv| > 0 && env.unmarshal(doc).Success? ==>
              var cmd := PreparedCommand(env.unmarshal(doc).value, argv, preserve, env);
              (env.start(cmd).Some? ==> step == (Error(env.start(cmd).value), s))
              && (env.start(cmd).None? ==>
                    step == (WaitOutcome(env.wait(cmd)), s.(started := s.started + [cmd])))
  {
    if argv == [] then (Ok, s)
    else
      match env.unmarshal(doc)
      case Failure(e) => (Fatal(e), s)
      case Success(data) =>
        var cmd := PreparedCommand(data, argv, preserve, env);
        match env.start(cmd)
        case Some(e) => (Error(e), s)
        case None => (WaitOutcome(env.wait(cmd)), s.(started := s.started + [cmd]))
  }

  /** runCommand. */
  method RunCommand(doc: string, argv: seq<string>, preserveEnv: bool, env: Env, world: World) returns (r: Outcome)
    modifies world
    ensures (r, world.View()) == LaunchSpec(doc, argv, preserveEnv, env, old(world.View()))
  {
    if |argv| == 0 {
      // "no command specified" is only logged.
      return Ok;
    }

    var command := argv[0];
    var args: seq<string> := [];
    if |argv[0]| > 1 {
      args := argv[1..];
    }

    var childEnv: seq<string> := [];
    if preserveEnv {
      childEnv := env.environ;
    }

    var parsed := env.unmarshal(doc);
    if parsed.Failure? {
      return Fatal(parsed.error);
    }

    // A conversion error is only logged; its empty entry list is appended all the same.
    var (entries, _) := ConvertMapToKeyValueList(parsed.value, env);
    childEnv := childEnv + entries;

    var cmd := Command(command, args, childEnv);
    var startErr := world.Start(cmd, env);
    if startErr.Some? {
      return Error(startErr.value);
    }

    var waitErr := env.wait(cmd);
    if waitErr.Some? {
      match waitErr.value
      case ChildExited(message, code) =>
        // An exit error reaches the CLI layer as an exit coder: the process ends with `code`.
        return Exit(message, code);
      case WaitFailed(message) =>
        return Error(message);
    }
    return Ok;
  }
}
