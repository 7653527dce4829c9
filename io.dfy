/**
 * The world outside the core: the decoded document, the behaviour of the collaborators the
 * core calls but does not implement, and the observable state the pipeline changes
 * (standard output, files, requests sent to the secret store, processes started).
 */
module Io {
  import opened Wrappers

  /** A node of a decoded document. */
  datatype Value =
    | Null
    | Boolean(b: bool)
    | Number(literal: string)
    | Text(s: string)
    | Object(members: seq<(string, Value)>)
    | Array(items: seq<Value>)

  /** The top-level map a document decodes to; `NilMap` is the nil map a `null` document leaves. */
  datatype Document = NilMap | Map(members: seq<(string, Value)>)

  /** A child process as it is handed to the operating system. */
  datatype Command = Command(name: string, args: seq<string>, env: seq<string>)

  /**
   * Why waiting for a child failed: the child ended with a non-zero status (an exit error,
   * which carries the child's own exit code to the CLI layer), or the wait itself failed.
   */
  datatype WaitError = ChildExited(message: string, code: int) | WaitFailed(message: string)

  /**
   * The collaborators, as total functions: an error is `Some(message)` or `Failure(message)`.
   *  - connect: creating the secret-manager client from a credentials file path
   *  - access: fetching a secret version by resource name, giving its payload
   *  - create: creating (truncating) an output file
   *  - unmarshal, marshal, marshalIndent, toAscii: the hJSON and JSON libraries
   *  - flatten: jsonutil.Flatten(json, prefix, formatter), left uninterpreted
   *  - environ: the parent process environment
   *  - start, wait: starting a child process and waiting for it; `wait` gives `None` when the
   *    child ended with status 0
   */
  datatype Env = Env(
    connect: string -> Option<string>,
    access: string -> Result<string, string>,
    create: string -> Option<string>,
    unmarshal: string -> Result<Document, string>,
    marshal: Document -> Result<string, string>,
    marshalIndent: (Document, string) -> Result<string, string>,
    toAscii: string -> string,
    flatten: (string, string, string) -> seq<string>,
    environ: seq<string>,
    start: Command -> Option<string>,
    wait: Command -> Option<WaitError>)

  /**
   * How an invocation ends: `Ok` is a nil error, `Error` an error returned to the CLI layer,
   * `Exit` an error carrying an exit code, `Fatal` a component terminating the process itself.
   */
  datatype Outcome = Ok | Error(message: string) | Exit(message: string, code: int) | Fatal(message: string)

  /** Where rendered output goes. */
  datatype Target = Stdout | File(path: string)

  /** The observable state of the world. */
  datatype WorldState = WorldState(
    stdout: string,
    files: map<string, string>,
    requests: seq<string>,
    started: seq<Command>)

  /** What has been written to a target so far (a file not yet created reads as empty). */
  function Contents(s: WorldState, t: Target): string {
    match t
    case Stdout => s.stdout
    case File(p) => if p in s.files then s.files[p] else []
  }

  /** The state after writing `text` to `t`: that target grows by `text`, nothing else changes. */
  function Append(s: WorldState, t: Target, text: string): (s': WorldState)
    ensures Contents(s', t) == Contents(s, t) + text
    ensures forall u :: u != t ==> Contents(s', u) == Contents(s, u)
    ensures s'.requests == s.requests && s'.started == s.started
  {
    match t
    case Stdout => s.(stdout := s.stdout + text)
    case File(p) => s.(files := s.files[p := Contents(s, t) + text])
  }

  /** Two writes in a row to one target are one write of both texts. */
  lemma AppendAppend(s: WorldState, t: Target, a: string, b: string)
    ensures Append(Append(s, t, a), t, b) == Append(s, t, a + b)
  {
    assert Contents(s, t) + a + b == Contents(s, t) + (a + b);
  }

  /** Writing nothing to standard output or to an existing file changes nothing. */
  lemma AppendNothing(s: WorldState, t: Target)
    requires t.File? ==> t.path in s.files
    ensures Append(s, t, []) == s
  {
    assert Contents(s, t) + [] == Contents(s, t);
  }

  /** The state after a file was created: it exists and is empty, whatever it held before. */
  function Truncate(s: WorldState, path: string): (s': WorldState)
    ensures path in s'.files && s'.files[path] == []
    ensures s'.files.Keys == s.files.Keys + {path}
    ensures s'.stdout == s.stdout && s'.requests == s.requests && s'.started == s.started
  {
    s.(files := s.files[path := []])
  }

  /** The mutable world the pipeline acts on. */
  class World {
    var stdout: string
    var files: map<string, string>
    var requests: seq<string>
    var started: seq<Command>

    function View(): WorldState
      reads this
    {
      WorldState(stdout, files, requests, started)
    }

    constructor (initial: WorldState)
      ensures View() == initial
    {
      stdout := initial.stdout;
      files := initial.files;
      requests := initial.requests;
      started := initial.started;
    }

    /** Writes `text` to the target in full. */
    method Write(t: Target, text: string)
      modifies this
      ensures View() == Append(old(View()), t, text)
    {
      match t
      case Stdout =>
        stdout := stdout + text;
      case File(p) =>
        files := files[p := Contents(View(), t) + text];
    }

    /** os.Create: on success the file exists and is empty. */
    method Create(path: string, env: Env) returns (err: Option<string>)
      modifies this
      ensures err == env.create(path)
      ensures View() == if err.Some? then old(View()) else Truncate(old(View()), path)
    {
      err := env.create(path);
      if err.None? {
        files := files[path := []];
      }
    }

    /** One access request sent to the secret store; the request is recorded whatever the answer. */
    method AccessSecretVersion(name: string, env: Env) returns (r: Result<string, string>)
      modifies this
      ensures r == env.access(name)
      ensures View() == old(View()).(requests := old(requests) + [name])
    {
      requests := requests + [name];
      r := env.access(name);
    }

    /** Starting a child process; a process that failed to start is not recorded. */
    method Start(cmd: Command, env: Env) returns (err: Option<string>)
      modifies this
      ensures err == env.start(cmd)
      ensures View() == if err.Some? then old(View()) else old(View()).(started := old(started) + [cmd])
    {
      err := env.start(cmd);
      if err.None? {
        started := started + [cmd];
      }
    }
  }
}
