/**
 * Option validation (hasConflictingOptions in main.go): at most one output format, and exactly
 * one key source, checked in that order before anything is fetched.
 */
module Conflicts {
  import opened Wrappers
  import opened Strings
  import opened Cli

  const MultipleFormats := "multiple output formats are not supported"
  const MultipleKeySources := "multiple key source formats are not supported"
  const MissingKeySource := "at least one key source format is required"

  /** numericutil.BoolToUint8: 1 for true, 0 for false. */
  function BoolToUint8(b: bool): (n: nat)
    ensures n <= 1 && (n == 1 <==> b)
  {
    if b then 1 else 0
  }

  /** How many of the four output-format flags are set (an 8-bit sum that cannot exceed 4). */
  function FormatCount(o: Options): (n: nat)
    ensures n <= 4
  {
    BoolToUint8(o.formatAsh) + BoolToUint8(o.formatBash) + BoolToUint8(o.formatJson) + BoolToUint8(o.formatRaw)
  }

  /** No two output-format flags are set together. */
  predicate AtMostOneFormat(o: Options) {
    && !(o.formatAsh && o.formatBash) && !(o.formatAsh && o.formatJson) && !(o.formatAsh && o.formatRaw)
    && !(o.formatBash && o.formatJson) && !(o.formatBash && o.formatRaw)
    && !(o.formatJson && o.formatRaw)
  }

  /** Exactly one of key-file and key-value is given (is not blank). */
  predicate ExactlyOneKeySource(o: Options) {
    IsBlank(o.keyFile) != IsBlank(o.keyValue)
  }

  /**
   * The Go pair (bad, err): `bad` exactly when an error is reported, and an error is reported
   * exactly when the options ask for two formats or do not name exactly one key source. A format
   * conflict is reported in preference to a key-source conflict.
   */
  function HasConflictingOptions(o: Options): (r: (bool, Option<string>))
    ensures r.0 <==> r.1.Some?
    ensures r.0 <==> !(AtMostOneFormat(o) && ExactlyOneKeySource(o))
    ensures !AtMostOneFormat(o) ==> r.1 == Some(MultipleFormats)
    ensures AtMostOneFormat(o) && !IsBlank(o.keyFile) && !IsBlank(o.keyValue) ==> r.1 == Some(MultipleKeySources)
    ensures AtMostOneFormat(o) && IsBlank(o.keyFile) && IsBlank(o.keyValue) ==> r.1 == Some(MissingKeySource)
  {
    if FormatCount(o) > 1 then (true, Some(MultipleFormats))
    else if !IsBlank(o.keyFile) && !IsBlank(o.keyValue) then (true, Some(MultipleKeySources))
    else if IsBlank(o.keyFile) && IsBlank(o.keyValue) then (true, Some(MissingKeySource))
    else (false, None)
  }

  /** Only the format flags and the two key sources decide the verdict; every other option is irrelevant. */
  lemma ConflictDependsOnlyOnFormatsAndKeys(o: Options, o': Options)
    requires o.formatAsh == o'.formatAsh && o.formatBash == o'.formatBash
    requires o.formatJson == o'.formatJson && o.formatRaw == o'.formatRaw
    requires IsBlank(o.keyFile) == IsBlank(o'.keyFile) && IsBlank(o.keyValue) == IsBlank(o'.keyValue)
    ensures HasConflictingOptions(o) == HasConflictingOptions(o')
  {
  }
}
