# injector: the secret-injection pipeline in Dafny

This project models the decision-making core of `injector`, a command-line tool that fetches
a secret document from Google Cloud Secret Manager and then either prints it (raw, as JSON, or
as `ash`/`bash` variable assignments) or runs a command with the document's entries injected
into the child's environment.

What is modelled:

- **Option validation** (`hasConflictingOptions`): at most one of the format flags ash, bash,
  json and raw, then exactly one non-blank key source (key-file or key-value). The checks run in
  that order with fixed messages (module `Conflicts`).
- **The main loop** `run` (module `Pipeline`):
  - validation comes before the fetch;
  - the fetched document is buffered;
  - the output target is standard output when the option is blank or `-`, otherwise a file
    that is created first;
  - dispatch tries json, raw, ash and bash in that order, and otherwise runs the command.
- **Command injection** `runCommand` and `convertMapToKeyValueList` (module `Launch`):
  - the positional arguments are split into a command and its arguments;
  - the child environment is the empty or inherited base followed by the flattened entries;
  - the child is started and then waited for; its non-zero exit status becomes the tool's.
- **Renderers** (module `Render`):
  - the shell renderers write one line per flattened entry; ash and bash differ only in the
    formatter constant;
  - the raw renderer copies the buffer unchanged;
  - the JSON renderer re-encodes the document.
- **The fetch** `FetchSecretDocument` (module `SecretManager`):
  - the version defaults to `latest`;
  - the resource name is `projects/P/secrets/S/versions/V`;
  - credentials come from the key file only;
  - errors carry fixed prefixes;
  - the payload is written followed by one newline.

How the model is laid out:

- The collaborators the core calls but does not implement are fields of the `Io.Env` datatype,
  as total functions. These are the secret-manager client, `os.Create`, the hJSON and JSON
  libraries, `jsonutil.Flatten`, `jsonutil.ConvertUnicodeToASCII`, `os.Environ`, and process
  start and wait.
- The observable state that the pipeline changes lives in class `Io.World`:
  - standard output;
  - the files created and their contents;
  - the access requests sent to the secret store;
  - the processes started.
- Every imperative method (`Run`, `FetchSecretDocument`, `RunCommand`, the renderers) is proved
  against a pure specification function on `Io.WorldState`. These are `RunSpec`, `FetchResult`
  with `FetchRequests`, `LaunchSpec`, and `Emit` applied to `ShellOutput` or `JsonOutput`. The
  properties of the source are then proved as lemmas about those functions.
- Go strings and byte slices are both `string`, with one character per byte.

Behaviour of the code that a reader might not expect, kept as written:

- **Child exit status.** A child that exits non-zero makes `cmd.Wait` return an exit error,
  and `run` returns it unchanged (main.go:302-306). The CLI library treats an error that
  carries an exit code as the process's exit status, so the invocation ends with the child's
  own status (`Launch.WaitOutcome`, `Pipeline.CommandModeStartsPreparedChild`). A child killed
  by a signal reports -1, which the operating system turns into status 255. Any other wait
  failure ends with status 1.
- **Quoted values in the child environment.** The child environment entries are what
  `jsonutil.Flatten` returns for the ash formatter `%s="%s"` (main.go:328). `outputShell`
  writes what `Flatten` returns for the same formatter directly as its output lines
  (main.go:365-369), and those are `KEY="VALUE"` lines. So the entries handed to the child
  evidently keep the double quotes, rather than plain `KEY=VALUE`. The body of `Flatten` is
  not part of this model, so this rests on that use, not on a proof.
- **Raw output.** Raw mode echoes the buffer, which holds the payload plus the newline that the
  fetch appended (gcp/secret_manager.go:55). It is not the stored bytes alone
  (`Pipeline.RawModeEchoesPayload`).
- **Fatal exits.** A document that fails to parse, and a JSON encoding failure in JSON mode,
  end the process through `log.Fatal` (main.go:445-447, 391-393). The model does not turn
  them into returned errors: they are the `Fatal` outcome.
- **Short command names.** `runCommand` tests the length of the first argument's *string*,
  not the number of arguments (main.go:265). A command named with one character (or an empty
  name) is therefore run without any of its arguments. The model keeps this behaviour, and
  `Launch.ShortCommandDropsArguments` states it exactly.
- **key-value is not used for credentials.** key-value passes validation as a key source, but
  the fetch never reads it (`SecretManager.FetchIgnoresKeyValue`).

## Model

| member | source | states |
|---|---|---|
| `Strings.IsBlankCases` | pkg/stringsutil/stringsutil_test.go:12-19 | the empty string and five spaces are blank; `aaaaa` is not |
| `Conflicts.BoolToUint8` | main.go:188-191 | a flag counts 1 exactly when it is set, else 0 |
| `Conflicts.FormatCount` | main.go:188-191 | the number of format flags set never exceeds 4, so the 8-bit sum cannot wrap |
| `Conflicts.HasConflictingOptions` | main.go:186-203 | reports a conflict exactly when two format flags are set or the key sources are not exactly one non-blank; the format message takes precedence; otherwise both key sources give "multiple key source formats are not supported", neither gives "at least one key source format is required"; `bad` holds exactly when an error is returned |
| `Conflicts.ConflictDependsOnlyOnFormatsAndKeys` | main.go:186-203 | only the four format flags and the blankness of the two key sources decide the verdict |
| `SecretManager.SecretVersion` | gcp/secret_manager.go:39-42 | `latest` when the requested version is blank, otherwise exactly the requested version; never blank |
| `SecretManager.ResourceName` | gcp/secret_manager.go:43 | the name's length is that of the three fixed parts plus the three components |
| `SecretManager.ResourceNameSegments` | gcp/secret_manager.go:43 | with slash-free components, splitting the name at `/` gives exactly `projects`, P, `secrets`, S, `versions`, V |
| `SecretManager.ResourceNameInjective` | gcp/secret_manager.go:43 | distinct slash-free (project, secret, version) triples never share a resource name |
| `SecretManager.FetchRequests` | gcp/secret_manager.go:29-52 | no access request is sent exactly when the client cannot be created; otherwise exactly one, for the resource name of the requested (or latest) version |
| `SecretManager.FetchResult` | gcp/secret_manager.go:18-60 | a client failure is the error "failed to create secretmanager client: " followed by the client's message; otherwise an access failure is "failed to access secret version: " followed by the store's message; otherwise success, with the payload followed by one newline; success happens exactly when both calls succeed, and the document then ends in a newline |
| `SecretManager.FetchIgnoresKeyValue` | gcp/secret_manager.go:22-26 | changing key-value changes neither the fetched document nor the requests sent: credentials come from key-file only |
| `SecretManager.FetchSecretDocument` | gcp/secret_manager.go:18-60 | records exactly the requests of `FetchRequests`; on success appends the fetched document to the buffer and returns no error; on failure returns the error and leaves the buffer unchanged |
| `Io.World.AccessSecretVersion` | gcp/secret_manager.go:48-52 | the answer is the store's answer for that name, and the request is recorded |
| `Io.World.Create` | main.go:228-231 | on success the file exists and is empty (truncated); on failure nothing changes |
| `Io.World.Write` | main.go:367-369 | the target's contents grow by exactly the text written; nothing else changes |
| `Io.World.Start` | main.go:296-300 | a started child is recorded; a child that fails to start is not |
| `Render.BashIsExportedAsh` | main.go:28-29 | the bash formatter is the ash formatter with `export ` in front |
| `Render.ShellTextConcat` | main.go:367-369 | the lines written for a list are those of its first part followed by those of the rest |
| `Render.ShellTextLines` | main.go:367-369 | when no entry holds a newline, splitting the shell text at newlines gives back the entries in order, plus the empty piece after the last newline |
| `Render.ShellOutput` | main.go:345-372 | an unparsable document is fatal with the parser's message; an encoding failure is a returned (not fatal) error with the encoder's message; when both succeed the text is one line per entry that the flattener produced from the re-encoded document with prefix `environment` and the given formatter |
| `Render.JsonOutput` | main.go:375-408 | every failure is fatal: an unparsable document with the parser's message, an indenting failure with the encoder's message; when both succeed the text is the ASCII-escaped, four-space-indented encoding of the parsed document |
| `Render.Emit` | main.go:367-369 | on success the target grows by the rendered text, no other target changes and no file other than the target is created; on failure nothing changes; no request is sent and nothing is started |
| `Render.OutputShell` | main.go:345-372 | the outcome and the new world are those of `Emit` applied to `ShellOutput` with the given formatter |
| `Render.OutputAshEnv` | main.go:333-335 | `OutputShell` with the ash formatter `%s="%s"` |
| `Render.OutputBashEnv` | main.go:339-341 | `OutputShell` with the bash formatter `export %s="%s"` |
| `Render.OutputRaw` | main.go:411-431 | the target receives the buffer's bytes unchanged, and the outcome is success |
| `Render.OutputJson` | main.go:375-408 | the outcome and the new world are those of `Emit` applied to `JsonOutput` |
| `Launch.ConvertMapToKeyValueList` | main.go:313-329 | a nil map gives "invalid environment map"; any error comes with an empty list; there is no error exactly when the map is non-nil and encodes; the list is then the flattening with prefix `environment` and the ash formatter |
| `Launch.CommandLine` | main.go:264-267 | the command is the first argument; the arguments are the rest when the command name is longer than one character, and none otherwise |
| `Launch.ShortCommandDropsArguments` | main.go:265-267 | with more than one argument, the rest are passed exactly when the first argument's string is longer than one character |
| `Launch.ShortCommandExample` | main.go:265-267 | `w -h` is run as `w` with no arguments |
| `Launch.ChildEnvironment` | main.go:272-294 | the base (the parent environment when preserved, else nothing) comes first and every entry follows in order; the length is the sum of both, so nothing is deduplicated |
| `Launch.PreparedCommand` | main.go:264-294 | the child runs the first argument, with the other arguments exactly when the name is longer than one character; its environment is the base (the parent environment when preserved, else empty) followed by the flattening of the re-encoded document with prefix `environment` and the ash formatter, or the base alone when conversion fails |
| `Launch.WaitOutcome` | main.go:302-308 | a wait without error is success; a child that exited non-zero gives an exit carrying the child's own message and code; any other wait failure is a plain error; a wait never ends fatally |
| `Launch.LaunchSpec` | main.go:255-309 | no arguments means success with nothing started; output, files and requests never change; a document that does not parse is fatal with the parser's message and starts nothing; a start failure is an error with its message and starts nothing; once the prepared child is started it is recorded, and the outcome is that of waiting for it |
| `Launch.RunCommand` | main.go:255-309 | the outcome and the new world are those of `LaunchSpec` |
| `Pipeline.SelectMode` | main.go:237-251 | command injection exactly when no format flag is set; otherwise the first set flag in the order json, raw, ash, bash decides (an order `run` cannot show, since validation rejects two flags); with at most one format flag the mode is the one that flag asks for |
| `Pipeline.OutputTarget` | main.go:224-235 | standard output exactly when the option is blank or `-`, otherwise the file the option names |
| `Pipeline.Opened` | main.go:224-235 | opening standard output changes nothing; a file target exists and is empty once opened, and standard output, requests, started processes and every other file are unchanged |
| `Pipeline.ExitCode` | main.go:152-155 | the exit status lies in 0-255 and is 0 exactly for success (or an exit whose code is 0 modulo 256); an error carrying an exit code exits with that code's low 8 bits (the code itself when it is in 0-255); any other error, and a fatal log, exits with 1 |
| `Pipeline.Dispatch` | main.go:237-251 | the mode's one branch on the open target: no mode sends a request; a renderer starts nothing and changes no other target; command injection leaves standard output and files alone; raw mode succeeds and appends the document unchanged |
| `Pipeline.RunSpec` | main.go:206-252 | the specification of `run`: conflicting options end with exit code 1 and the conflict's message, changing nothing; past validation exactly the fetch's requests are sent; success requires valid options and a successful fetch; a rendering mode starts nothing |
| `Pipeline.Run` | main.go:206-252 | the outcome and the new world are those of `RunSpec` |
| `Pipeline.ConflictStopsBeforeFetch` | main.go:214-217 | conflicting options end the run with exit code 1 and the conflict's message; the world is unchanged, so nothing is fetched, created, written or started |
| `Pipeline.ValidOptionsSelectRequestedMode` | main.go:237-245 | options that pass validation name exactly one key source, and the mode selected is the one their format flag names |
| `Pipeline.FetchHappensOnce` | main.go:219-222 | past validation the requests grow by exactly the fetch's requests |
| `Pipeline.FetchFailureStopsBeforeOutput` | main.go:219-222 | a failed fetch ends the run with its error; only the request was recorded |
| `Pipeline.CreateFailureStopsBeforeWrite` | main.go:226-231 | an output file that cannot be created ends the run with that error; no output, file or process results |
| `Pipeline.RenderersStartNothing` | main.go:237-245 | the four rendering modes never start a process |
| `Pipeline.CommandModeWritesNothing` | main.go:247-251 | command injection itself writes nothing to standard output (the child's output is not modelled) and at most creates the empty output file |
| `Pipeline.RawModeEchoesPayload` | main.go:239-240 | for valid options in raw mode, when the client is created, the store returns the payload and the output file (if any) is created: the run succeeds and writes exactly the payload and one newline to the target |
| `Pipeline.ShellModeWritesEntries` | main.go:241-244 | for valid options in ash or bash mode, when the fetch, the file creation, the parse and the re-encoding succeed: the run succeeds and writes every flattened entry followed by a newline, whatever the entries contain; standard output grows by exactly that text, or a created file holds exactly it |
| `Pipeline.ShellModeWritesOneLinePerEntry` | main.go:241-244 | for valid options in ash or bash mode, when the fetch, the file creation, the parse and the re-encoding succeed and no entry holds a newline: the run succeeds and writes one line per flattened entry, in the flattener's order; standard output grows by exactly those lines, and a created file splits at newlines into exactly those entries followed by the empty piece after the last newline |
| `Pipeline.CommandModeStartsPreparedChild` | main.go:247-251 | for valid options in command mode with at least one argument, when the fetch, the file creation (if any), the parse and the start succeed: command injection starts exactly the prepared child and succeeds exactly when waiting for it succeeds; a child that exits non-zero makes the tool exit with the child's own status reduced to 8 bits, any other wait failure with 1 |

## Left out

- Command-line surface: the flag table, the environment-variable fallbacks, help and version printing, and build metadata (main.go:37-156). Options arrive as the `Cli.Options` record.
- The `debug` dump (main.go:160-181, 210-212). It writes version and option values to standard output before validation. This output is not part of the modelled standard output.
- The child's own output. The child writes to the tool's standard output (main.go:276-277), and that output is not part of the modelled standard output either, which holds only what the tool itself writes.
- The hJSON parser, the JSON encoders, `jsonutil.ConvertUnicodeToASCII` and `jsonutil.Flatten`. Their code is not part of this model, so they are uninterpreted fields of `Io.Env`, and nothing is claimed about leaf counts or key paths. `Io.Value` and `Io.Document` only name the shape of the parsed data.
- The blank checks: main.go uses `stringutil.IsBlank` from pkg/stringutil (main.go:22, 196, 198, 226) and gcp/secret_manager.go uses `stringsutil.IsBlank` from pkg/stringsutil (gcp/secret_manager.go:13, 40). Neither implementation is part of this model, and the one predicate `Strings.IsBlank` stands for both. It takes a string to be blank when every character is ASCII white space, which agrees with the empty string and the cases in pkg/stringsutil/stringsutil_test.go; any other character the real functions may treat as white space is not captured.
- The Secret Manager client and its network calls. Client creation and the access call are the `connect` and `access` functions. `client.Close` and its log line are dropped.
- Write errors and short writes. The model's writes always complete. The `os.Exit(1)` paths after a failed or short write in `outputRaw` and `outputJSON` (main.go:397-405, 420-428) are not modelled. Neither is the error return of the buffer write in the fetch (gcp/secret_manager.go:55-57), which cannot fail for an in-memory buffer.
- The nil context and nil buffer checks (main.go:314-316 for the context, 346-352, 376-382, 412-418, 437-443). They are unreachable from `run`, which always passes both.
- Process execution details: binding the child's standard streams, the `Setpgid` process group and signal forwarding (main.go:271, 276-281). The child is the `Io.Command` record that `start` and `wait` receive. The `ChildExited` code is whatever the exit error reports, -1 for a child killed by a signal; `Pipeline.ExitCode` reduces it to the 8-bit status the operating system keeps, so that case ends the tool with 255.
- Logging (`log.Warn`, `log.Error`) and closing the output file.
- The CLI library's own code is not part of this model. `Pipeline.ExitCode` states how it ends the process: an error that carries an exit code (the conflict's `cli.Exit`, a child's exit error) exits with that code, and any other error reaches `log.Fatal` in `main` (main.go:152-155) and exits with 1. The message the library prints first is not modelled.
- Output files are modelled by path: two paths naming one file, and writes by other processes, are not captured.
