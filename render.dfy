/**
 * The renderers of main.go: shell assignments for ash or bash (one line per flattened entry),
 * the raw document byte for byte, and the document re-encoded as indented ASCII JSON.
 */
module Render {
  import opened Wrappers
  import opened Strings
  import opened Io

  /** Line formatters handed to the flattener: key, then value. */
  const AshFormatter := "%s=\"%s\""
  const BashFormatter := "export %s=\"%s\""
  const JsonIndent := "    "
  /** The root prefix every flattened key path starts from. */
  const EnvironmentPrefix := "environment"

  /** The two shell formatters differ only by the `export ` in front. */
  lemma BashIsExportedAsh()
    ensures BashFormatter == "export " + AshFormatter
  {
  }

  /** Each entry followed by a newline, in list order. */
  function ShellText(lines: seq<string>): string {
    if lines == [] then [] else lines[0] + "\n" + ShellText(lines[1..])
  }

  /** The text of a list is the text of its first part followed by the text of the rest. */
  lemma {:induction false} ShellTextConcat(a: seq<string>, b: seq<string>)
    ensures ShellText(a + b) == ShellText(a) + ShellText(b)
    decreases |a|
  {
    if a == [] {
      assert a + b == b;
    } else {
      assert (a + b)[0] == a[0] && (a + b)[1..] == a[1..] + b;
      ShellTextConcat(a[1..], b);
    }
  }

  /**
   * One line per entry: when no entry holds a newline, cutting the text at newlines gives back
   * the entries in order, followed by the empty piece after the final newline.
   */
  lemma {:induction false} ShellTextLines(lines: seq<string>)
    requires forall i :: 0 <= i < |lines| ==> '\n' !in lines[i]
    ensures Split(ShellText(lines), '\n') == lines + [[]]
    decreases |lines|
  {
    if lines != [] {
      ShellTextLines(lines[1..]);
      SplitAtSeparator(lines[0], '\n', ShellText(lines[1..]));
      assert lines[0] + "\n" + ShellText(lines[1..]) == lines[0] + ['\n'] + ShellText(lines[1..]);
      assert lines == [lines[0]] + lines[1..];
    }
  }

  /**
   * What a shell renderer writes, or how it ends early: a document that does not parse is fatal,
   * an encoding failure is a returned error, and otherwise the text is one line per entry.
   */
  function ShellOutput(doc: string, env: Env, formatter: string): (r: Result<string, Outcome>)
    ensures env.unmarshal(doc).Failure? ==> r == Failure(Fatal(env.unmarshal(doc).error))
    ensures env.unmarshal(doc).Success? && env.marshal(env.unmarshal(doc).value).Failure? ==>
              r == Failure(Error(env.marshal(env.unmarshal(doc).value).error))
    ensures env.unmarshal(doc).Success? && env.marshal(env.unmarshal(doc).value).Success? ==>
              r == Success(ShellText(env.flatten(env.marshal(env.unmarshal(doc).value).value, EnvironmentPrefix, formatter)))
    ensures r.Success? ==>
              env.unmarshal(doc).Success? && env.marshal(env.unmarshal(doc).value).Success?
              && r.value == ShellText(env.flatten(env.marshal(env.unmarshal(doc).value).value, EnvironmentPrefix, formatter))
  {
    match env.unmarshal(doc)
    case Failure(e) => Failure(Fatal(e))
    case Success(data) =>
      match env.marshal(data)
      case Failure(e) => Failure(Error(e))
      case Success(json) => Success(ShellText(env.flatten(json, EnvironmentPrefix, formatter)))
  }

  /** What the JSON renderer writes; parse and encoding failures both terminate the process. */
  function JsonOutput(doc: string, env: Env): (r: Result<string, Outcome>)
    ensures r.Failure? ==> r.error.Fatal?
    ensures env.unmarshal(doc).Failure? ==> r == Failure(Fatal(env.unmarshal(doc).error))
    ensures env.unmarshal(doc).Success? && env.marshalIndent(env.unmarshal(doc).value, JsonIndent).Failure? ==>
              r == Failure(Fatal(env.marshalIndent(env.unmarshal(doc).value, JsonIndent).error))
    ensures env.unmarshal(doc).Success? && env.marshalIndent(env.unmarshal(doc).value, JsonIndent).Success? ==>
              r == Success(env.toAscii(env.marshalIndent(env.unmarshal(doc).value, JsonIndent).value))
    ensures r.Success? ==>
              env.unmarshal(doc).Success?
              && env.marshalIndent(env.unmarshal(doc).value, JsonIndent).Success?
              && r.value == env.toAscii(env.marshalIndent(env.unmarshal(doc).value, JsonIndent).value)
  {
    match env.unmarshal(doc)
    case Failure(e) => Failure(Fatal(e))
    case Success(data) =>
      match env.marshalIndent(data, JsonIndent)
      case Failure(e) => Failure(Fatal(e))
      case Success(pretty) => Success(env.toAscii(pretty))
  }

  /**
   * A renderer's effect: write the text to the target and succeed, or change nothing and end as
   * told. No file other than the target is created.
   */
  function Emit(r: Result<string, Outcome>, t: Target, s: WorldState): (step: (Outcome, WorldState))
    ensures r.Failure? ==> step == (r.error, s)
    ensures r.Success? ==> step.0 == Ok && Contents(step.1, t) == Contents(s, t) + r.value
    ensures forall u :: u != t ==> Contents(step.1, u) == Contents(s, u)
    ensures r.Success? ==> step.1.files.Keys == s.files.Keys + (if t.File? then {t.path} else {})
    ensures step.1.requests == s.requests && step.1.started == s.started
  {
    match r
    case Failure(o) => (o, s)
    case Success(text) => (Ok, Append(s, t, text))
  }

  /** outputShell: writes each flattened entry and a newline to the target. */
  method OutputShell(doc: string, world: World, t: Target, env: Env, formatter: string) returns (r: Outcome)
    requires t.File? ==> t.path in world.files
    modifies world
    ensures (r, world.View()) == Emit(ShellOutput(doc, env, formatter), t, old(world.View()))
  {
    var parsed := env.unmarshal(doc);
    if parsed.Failure? {
      return Fatal(parsed.error);
    }
    var json := env.marshal(parsed.value);
    if json.Failure? {
      return Error(json.error);
    }
    var list := env.flatten(json.value, EnvironmentPrefix, formatter);

    AppendNothing(world.View(), t);
    var i := 0;
    while i < |list|
      invariant 0 <= i <= |list|
      invariant world.View() == Append(old(world.View()), t, ShellText(list[..i]))
    {
      assert list[..i + 1] == list[..i] + [list[i]];
      ShellTextConcat(list[..i], [list[i]]);
      assert ShellText([list[i]]) == list[i] + "\n";
      AppendAppend(old(world.View()), t, ShellText(list[..i]), list[i] + "\n");
      world.Write(t, list[i] + "\n");
      i := i + 1;
    }
    assert list[..i] == list;
    return Ok;
  }

  /** outputAshEnv: the shell renderer with the ash formatter. */
  method OutputAshEnv(doc: string, world: World, t: Target, env: Env) returns (r: Outcome)
    requires t.File? ==> t.path in world.files
    modifies world
    ensures (r, world.View()) == Emit(ShellOutput(doc, env, AshFormatter), t, old(world.View()))
  {
    r := OutputShell(doc, world, t, env, AshFormatter);
  }

  /** outputBashEnv: the shell renderer with the bash formatter. */
  method OutputBashEnv(doc: string, world: World, t: Target, env: Env) returns (r: Outcome)
    requires t.File? ==> t.path in world.files
    modifies world
    ensures (r, world.View()) == Emit(ShellOutput(doc, env, BashFormatter), t, old(world.View()))
  {
    r := OutputShell(doc, world, t, env, BashFormatter);
  }

  /** outputRaw: the fetched bytes, unchanged. */
  method OutputRaw(doc: string, world: World, t: Target) returns (r: Outcome)
    modifies world
    ensures r == Ok && world.View() == Append(old(world.View()), t, doc)
  {
    world.Write(t, doc);
    return Ok;
  }

  /** outputJSON: the document re-encoded with four-space indentation and escaped to ASCII. */
  method OutputJson(doc: string, world: World, t: Target, env: Env) returns (r: Outcome)
    modifies world
    ensures (r, world.View()) == Emit(JsonOutput(doc, env), t, old(world.View()))
  {
    var parsed := env.unmarshal(doc);
    if parsed.Failure? {
      return Fatal(parsed.error);
    }
    var pretty := env.marshalIndent(parsed.value, JsonIndent);
    if pretty.Failure? {
      return Fatal(pretty.error);
    }
    var ascii := env.toAscii(pretty.value);
    world.Write(t, ascii);
    return Ok;
  }
}
