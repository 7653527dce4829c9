/** The resolved command-line options of one invocation, as the CLI layer hands them to `run`. */
module Cli {

  /**
   * One field per option flag read by the core (key-file, key-value, format-ash, format-bash,
   * format-json, format-raw, preserve-env, output-file, project, secret-name, secret-version),
   * plus the positional arguments that form the command to run.
   */
  datatype Options = Options(
    keyFile: string,
    keyValue: string,
    formatAsh: bool,
    formatBash: bool,
    formatJson: bool,
    formatRaw: bool,
    preserveEnv: bool,
    outputFile: string,
    project: string,
    secretName: string,
    secretVersion: string,
    args: seq<string>)
}
