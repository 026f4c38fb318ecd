# dotnet SDK build steps for Jenkins — a verified model

This project models three pieces of the Jenkins plugin that runs the .NET SDK's `dotnet` command:

- **The `dotnet list package` build step** (module `Commands`, file `list_package.dfy`). It holds:
  - the step's ten settings and their normalising setters;
  - the command line the step appends to Jenkins' argument list;
  - the form checks its configuration page runs (`doCheck…`).

  The update options are `--include-prerelease`, `--highest-minor`, `--highest-patch`, `--config` and `--source`. They reach the command line only when an update search (`--outdated` or `--deprecated`) is requested.
- **The `dotnet build` build step** (module `MSBuild`, file `build.dfy`). It holds the step's eight settings and their setters. It also holds the command line: `build`, then the tokens of the MSBuild base command, then the step's own flags and options.
- **The console filter that scans the build output** (module `Console`, file `status_scanner.dfy`). It picks up MSBuild's closing summary lines (`    3 Error(s)`, `    12 Warning(s)`) and remembers the counts they report. Every line, summary lines included, is written through to the wrapped output. The exception is a summary line whose count does not fit an `int`: there `Integer.parseInt` throws before the line is written.

Two shared modules support them:

- `Text` (`text.dfy`) models Java's `String.trim()`, Jenkins' `Util.fixEmptyAndTrim` and `String.split(" ")`. It also defines the space-joined form in which the list-valued settings are stored.
- `Arguments` (`arguments.dfy`) models the append-only argument list and the token segments the steps emit. It also provides the functions that read those segments back.

Each build step is a `class` with the Java fields. Every setter states the step's new settings as the old ones with one field replaced. `AddCommandLineArguments` is proved to append exactly `ListPackageArgs(settings)` or `BuildArgs(settings, base)`. The properties of those command lines are then proved as lemmas:

- where each setting lands;
- that unrelated settings add nothing;
- that a decoder reads the line back to the settings that reach it (`Effective`), so steps that differ in such a setting give different lines. For `build`, this holds given how many tokens the base command added.

The scanner is a `class` whose invariant ties the counters to a left fold over the lines passed through so far.

The Javadoc of `Build.addCommandLineArguments` names `setRuntime` as the source of `--version-suffix`. The code uses the version suffix field, and the model follows the code.

## Model

| member | source | states |
|---|---|---|
| Text.Trim | src/main/java/io/jenkins/plugins/dotnet/commands/ListPackage.java:101 | the result is the contiguous middle of the input left after removing the leading and trailing characters at or below U+0020; it is empty exactly when every character is such a character, and otherwise starts and ends with a visible character |
| Text.FixEmptyAndTrim | src/main/java/io/jenkins/plugins/dotnet/commands/ListPackage.java:101 | null stays null; a string becomes null exactly when it holds no visible character, otherwise it becomes its trimmed form |
| Text.FixEmptyAndTrimIdempotent | src/main/java/io/jenkins/plugins/dotnet/commands/ListPackage.java:272-273 | a value a setter stored passes through the setter again unchanged |
| Text.Split | src/main/java/io/jenkins/plugins/dotnet/commands/ListPackage.java:59 | `split(" ")`: a string without a space is its only piece; no piece contains a space; when there is a space, the last piece kept is not empty (trailing empty pieces are dropped) |
| Text.SplitEdgeCases | src/main/java/io/jenkins/plugins/dotnet/commands/msbuild/Build.java:60 | on a lone space, the empty string, a leading space and doubled or trailing spaces, the split gives what Java gives: no pieces, one empty piece, a leading empty piece, inner empty pieces kept and trailing ones dropped |
| Text.SplitListString | src/main/java/io/jenkins/plugins/dotnet/commands/ListPackage.java:58-61 | splitting a stored list at spaces yields non-empty items without spaces, and joining them with single spaces gives the stored string back |
| Text.JoinNormalizedItems | src/main/java/io/jenkins/plugins/dotnet/commands/ListPackage.java:73-76 | items joined with single spaces form a stored list that splits back into exactly those items |
| Text.StoredItemsOf | src/main/java/io/jenkins/plugins/dotnet/commands/msbuild/Build.java:59-62 | a stored list field is recovered from the items it splits into (absent when there are none) |
| Text.PiecesOfJoin | src/main/java/io/jenkins/plugins/dotnet/commands/msbuild/Build.java:60 | splitting at every space undoes joining with spaces when no item holds a space |
| Arguments.ArgumentListBuilder.Add | src/main/java/io/jenkins/plugins/dotnet/commands/ListPackage.java:51 | appends exactly the one argument to the list |
| Arguments.ArgumentListBuilder.AddIfPresent | src/main/java/io/jenkins/plugins/dotnet/commands/ListPackage.java:52 | adding a null argument adds nothing; a present one is appended |
| Arguments.ArgumentListBuilder.AddAll | src/main/java/io/jenkins/plugins/dotnet/commands/msbuild/Build.java:64 | the several-argument `add` appends each argument in turn, after what the list held |
| Arguments.Pairs | src/main/java/io/jenkins/plugins/dotnet/commands/ListPackage.java:58-61 | a per-item `flag value` run holds two tokens per item |
| Arguments.PairsAt | src/main/java/io/jenkins/plugins/dotnet/commands/ListPackage.java:59-60 | the i-th pair of the run is the flag followed by the i-th item |
| Arguments.TakePairsOf | src/main/java/io/jenkins/plugins/dotnet/commands/ListPackage.java:73-76 | a run of pairs is read back item by item, up to the first token that is not the flag |
| Arguments.TakeAllPrefixedOf | src/main/java/io/jenkins/plugins/dotnet/commands/msbuild/Build.java:59-62 | a run of `-t:`-style tokens is read back item by item |
| Commands.ListPackage.constructor | src/main/java/io/jenkins/plugins/dotnet/commands/ListPackage.java:24 | a new step has every flag off and every string null |
| Commands.ListPackageArgs | src/main/java/io/jenkins/plugins/dotnet/commands/ListPackage.java:50-78 | the step's command line starts with `list`, then the project only when one is set, then `package`; the positional lemmas below place every other setting |
| Commands.ListPackage.SetConfig | src/main/java/io/jenkins/plugins/dotnet/commands/ListPackage.java:100-101 | stores the configuration file through `fixEmptyAndTrim`; every other setting is unchanged |
| Commands.ListPackage.SetDeprecated | src/main/java/io/jenkins/plugins/dotnet/commands/ListPackage.java:121-122 | stores the flag; every other setting is unchanged |
| Commands.ListPackage.SetFrameworks | src/main/java/io/jenkins/plugins/dotnet/commands/ListPackage.java:143-144 | stores the normalised framework list; every other setting is unchanged |
| Commands.ListPackage.SetHighestMinor | src/main/java/io/jenkins/plugins/dotnet/commands/ListPackage.java:165-166 | stores the flag; every other setting is unchanged |
| Commands.ListPackage.SetHighestPatch | src/main/java/io/jenkins/plugins/dotnet/commands/ListPackage.java:187-188 | stores the flag; every other setting is unchanged |
| Commands.ListPackage.SetIncludePrerelease | src/main/java/io/jenkins/plugins/dotnet/commands/ListPackage.java:208-209 | stores the flag; every other setting is unchanged |
| Commands.ListPackage.SetIncludeTransitive | src/main/java/io/jenkins/plugins/dotnet/commands/ListPackage.java:229-230 | stores the flag; every other setting is unchanged |
| Commands.ListPackage.SetOutdated | src/main/java/io/jenkins/plugins/dotnet/commands/ListPackage.java:250-251 | stores the flag; every other setting is unchanged |
| Commands.ListPackage.SetProject | src/main/java/io/jenkins/plugins/dotnet/commands/ListPackage.java:272-273 | stores the project through `fixEmptyAndTrim`; every other setting is unchanged |
| Commands.ListPackage.SetSources | src/main/java/io/jenkins/plugins/dotnet/commands/ListPackage.java:294-295 | stores the normalised source list; every other setting is unchanged |
| Commands.ListPackage.AddCommandLineArguments | src/main/java/io/jenkins/plugins/dotnet/commands/ListPackage.java:50-78 | appends exactly the step's command line for its current settings, after whatever the list already held |
| Commands.AddEachPair | src/main/java/io/jenkins/plugins/dotnet/commands/ListPackage.java:58-61 | the loop appends one `flag item` pair per item of the stored list, in order, and nothing for an absent list |
| Commands.AddUpdateSearchOptions | src/main/java/io/jenkins/plugins/dotnet/commands/ListPackage.java:65-76 | appends the update options in their fixed order, each only when set |
| Commands.ReportFlagsAfterHead | src/main/java/io/jenkins/plugins/dotnet/commands/ListPackage.java:54-57 | right after `package` stands `--deprecated` exactly when it is set, and after that `--outdated` exactly when it is set |
| Commands.FrameworkPairsAt | src/main/java/io/jenkins/plugins/dotnet/commands/ListPackage.java:58-61 | the i-th framework item stands at its place in the run, preceded by `--framework` |
| Commands.TransitiveAfterFrameworks | src/main/java/io/jenkins/plugins/dotnet/commands/ListPackage.java:62-64 | after the framework pairs stands `--include-transitive` exactly when it is set; without an update search the line ends there |
| Commands.UpdateSearchLast | src/main/java/io/jenkins/plugins/dotnet/commands/ListPackage.java:64-77 | in an update search the line ends with the update options in their fixed order |
| Commands.UpdateSettingsIgnored | src/main/java/io/jenkins/plugins/dotnet/commands/ListPackage.java:64 | without an update search, the prerelease, highest-version, config and source settings do not affect the line at all |
| Commands.DefaultsListPackageOnly | src/main/java/io/jenkins/plugins/dotnet/commands/ListPackage.java:24 | a fresh step runs plain `list package` |
| Commands.DecodeHeadOf | src/main/java/io/jenkins/plugins/dotnet/commands/ListPackage.java:51-53 | the head of the line is read back to the project that produced it |
| Commands.DecodeUpdateSearchArgsOf | src/main/java/io/jenkins/plugins/dotnet/commands/ListPackage.java:65-76 | the update options are read back to the settings that produced them |
| Commands.ListPackageArgsRoundTrip | src/main/java/io/jenkins/plugins/dotnet/commands/ListPackage.java:50-78 | reading a step's command line back recovers every setting that reaches it (all of them in an update search; all but the update options otherwise) |
| Commands.ListPackageArgsInjective | src/main/java/io/jenkins/plugins/dotnet/commands/ListPackage.java:50-78 | two well-formed steps give the same line if and only if they agree on every setting that reaches it |
| Commands.UpdateSettingsIgnoredEffective | src/main/java/io/jenkins/plugins/dotnet/commands/ListPackage.java:64 | dropping the update options of a step that makes no update search leaves its line unchanged |
| Commands.WarnUnlessUpdateSearch | src/main/java/io/jenkins/plugins/dotnet/commands/ListPackage.java:356-359 | the only verdicts are fine and the "only for a package update search" warning |
| Commands.EitherReport | src/main/java/io/jenkins/plugins/dotnet/commands/ListPackage.java:339-342 | the only verdicts are fine and the "either deprecated or outdated" error |
| Commands.CheckConfig | src/main/java/io/jenkins/plugins/dotnet/commands/ListPackage.java:323-326 | the only verdicts are fine and the update-search warning (see ConfigWarning for when) |
| Commands.CheckDeprecated | src/main/java/io/jenkins/plugins/dotnet/commands/ListPackage.java:339-342 | the only verdicts are fine and the either-report error (see ReportCheckError for when) |
| Commands.CheckHighestMinor | src/main/java/io/jenkins/plugins/dotnet/commands/ListPackage.java:356-359 | the only verdicts are fine and the update-search warning (see UpdateFlagWarning for when) |
| Commands.CheckHighestPatch | src/main/java/io/jenkins/plugins/dotnet/commands/ListPackage.java:373-376 | the only verdicts are fine and the update-search warning (see UpdateFlagWarning for when) |
| Commands.CheckIncludePrerelease | src/main/java/io/jenkins/plugins/dotnet/commands/ListPackage.java:390-393 | the only verdicts are fine and the update-search warning (see UpdateFlagWarning for when) |
| Commands.CheckOutdated | src/main/java/io/jenkins/plugins/dotnet/commands/ListPackage.java:406-409 | the only verdicts are fine and the either-report error (see ReportCheckError for when) |
| Commands.CheckSources | src/main/java/io/jenkins/plugins/dotnet/commands/ListPackage.java:423-426 | the only verdicts are fine and the update-search warning (see SourcesWarning for when) |
| Commands.ReportCheckError | src/main/java/io/jenkins/plugins/dotnet/commands/ListPackage.java:339-342 | the deprecated and outdated checks agree; they give an error exactly when the line would carry both `--deprecated` and `--outdated` after `package` |
| Commands.UpdateFlagWarning | src/main/java/io/jenkins/plugins/dotnet/commands/ListPackage.java:390-393 | the check on an update flag warns exactly when the flag is ticked and ticking it does not change the command line |
| Commands.UpdateFlagCounts | src/main/java/io/jenkins/plugins/dotnet/commands/ListPackage.java:65-70 | in an update search, ticking an update flag adds one token to the line |
| Commands.ConfigWarning | src/main/java/io/jenkins/plugins/dotnet/commands/ListPackage.java:323-326 | the configuration check warns exactly when the setter would store a file name that the command line then leaves out |
| Commands.SourcesWarning | src/main/java/io/jenkins/plugins/dotnet/commands/ListPackage.java:423-426 | the sources check warns exactly when non-blank text is entered while a stored source list would not reach the command line |
| MSBuild.Build.constructor | src/main/java/io/jenkins/plugins/dotnet/commands/msbuild/Build.java:23 | a new step has every flag off and every string null |
| MSBuild.BuildArgs | src/main/java/io/jenkins/plugins/dotnet/commands/msbuild/Build.java:44-65 | the step's command line is `build` first, then the base command's tokens unchanged, then the step's own tokens |
| MSBuild.Build.SetForce | src/main/java/io/jenkins/plugins/dotnet/commands/msbuild/Build.java:86-87 | stores the flag; every other setting is unchanged |
| MSBuild.Build.SetFramework | src/main/java/io/jenkins/plugins/dotnet/commands/msbuild/Build.java:108-109 | stores the framework moniker through `fixEmptyAndTrim`; every other setting is unchanged |
| MSBuild.Build.SetNoDependencies | src/main/java/io/jenkins/plugins/dotnet/commands/msbuild/Build.java:129-130 | stores the flag; every other setting is unchanged |
| MSBuild.Build.SetNoIncremental | src/main/java/io/jenkins/plugins/dotnet/commands/msbuild/Build.java:150-151 | stores the flag; every other setting is unchanged |
| MSBuild.Build.SetNoRestore | src/main/java/io/jenkins/plugins/dotnet/commands/msbuild/Build.java:171-172 | stores the flag; every other setting is unchanged |
| MSBuild.Build.SetRuntime | src/main/java/io/jenkins/plugins/dotnet/commands/msbuild/Build.java:193-194 | stores the runtime identifier through `fixEmptyAndTrim`; every other setting is unchanged |
| MSBuild.Build.SetTargets | src/main/java/io/jenkins/plugins/dotnet/commands/msbuild/Build.java:215-216 | stores the normalised target list; every other setting is unchanged |
| MSBuild.Build.SetVersionSuffix | src/main/java/io/jenkins/plugins/dotnet/commands/msbuild/Build.java:237-238 | stores the version suffix through `fixEmptyAndTrim`; every other setting is unchanged |
| MSBuild.Build.AddCommandLineArguments | src/main/java/io/jenkins/plugins/dotnet/commands/msbuild/Build.java:44-65 | appends exactly `build`, the base command's tokens and the step's own tokens for its current settings |
| MSBuild.AddFlags | src/main/java/io/jenkins/plugins/dotnet/commands/msbuild/Build.java:47-54 | appends the set flags in their fixed order |
| MSBuild.AddOptions | src/main/java/io/jenkins/plugins/dotnet/commands/msbuild/Build.java:55-58 | appends `-f:` and `-r:` tokens, each only when its value is set |
| MSBuild.AddTargets | src/main/java/io/jenkins/plugins/dotnet/commands/msbuild/Build.java:59-62 | the loop appends one `-t:` token per stored target, in order, and nothing when no targets are set |
| MSBuild.DefaultsBuildOnly | src/main/java/io/jenkins/plugins/dotnet/commands/msbuild/Build.java:23 | a fresh step with nothing from the base command runs plain `build` |
| MSBuild.FlagArgsToggle | src/main/java/io/jenkins/plugins/dotnet/commands/msbuild/Build.java:47-54 | within the flags, turning one on inserts its token after the set flags that precede it |
| MSBuild.SetFlagsToggle | src/main/java/io/jenkins/plugins/dotnet/commands/msbuild/Build.java:47-54 | in any list of optional flags, setting one inserts exactly its token at the place fixed by the set flags before it |
| MSBuild.BuildFlagToggle | src/main/java/io/jenkins/plugins/dotnet/commands/msbuild/Build.java:47-54 | turning a boolean option on inserts exactly its flag token at its fixed place and leaves every other token where it was |
| MSBuild.BuildTargetsThenSuffix | src/main/java/io/jenkins/plugins/dotnet/commands/msbuild/Build.java:59-64 | one `-t:` token per target, in order, follows the base command; only the version suffix pair comes after them |
| MSBuild.VersionSuffixLast | src/main/java/io/jenkins/plugins/dotnet/commands/msbuild/Build.java:63-64 | a set version suffix ends the line as `--version-suffix` followed by the value, as two tokens |
| MSBuild.TakeFlagsOf | src/main/java/io/jenkins/plugins/dotnet/commands/msbuild/Build.java:47-54 | the flag segment is read back to the four flags that produced it |
| MSBuild.DecodeOptionsOf | src/main/java/io/jenkins/plugins/dotnet/commands/msbuild/Build.java:55-64 | the framework, runtime, targets and version suffix are read back as emitted |
| MSBuild.DecodeOwnArgsOf | src/main/java/io/jenkins/plugins/dotnet/commands/msbuild/Build.java:47-64 | the step's own tokens are read back to the settings that produced them |
| MSBuild.BuildArgsRoundTrip | src/main/java/io/jenkins/plugins/dotnet/commands/msbuild/Build.java:44-65 | reading the line back, knowing only how many tokens the base command added, recovers that contribution and every setting |
| MSBuild.BuildArgsInjective | src/main/java/io/jenkins/plugins/dotnet/commands/msbuild/Build.java:44-65 | well-formed steps with equally long base contributions give the same line only when their settings and contributions are equal |
| Console.TrimEol | src/main/java/io/jenkins/plugins/dotnet/console/StatusScanner.java:47 | the result is a prefix of the line with no trailing CR or LF; only CR and LF characters were removed |
| Console.LeadingSpaces | src/main/java/io/jenkins/plugins/dotnet/console/StatusScanner.java:40 | counts the leading run of spaces the pattern's ` *` consumes: a prefix of spaces that no further space extends |
| Console.CountMatch | src/main/java/io/jenkins/plugins/dotnet/console/StatusScanner.java:40-43 | a pattern match is, in full, a run of spaces, the captured ASCII digits and the suffix (CountMatchComplete gives the converse) |
| Console.ParseInt | src/main/java/io/jenkins/plugins/dotnet/console/StatusScanner.java:51 | a parse succeeds with the digits' value, within the `int` range, and fails exactly when that value exceeds `Integer.MAX_VALUE` |
| Console.Classify | src/main/java/io/jenkins/plugins/dotnet/console/StatusScanner.java:49-56 | any count a summary line yields lies between 0 and `Integer.MAX_VALUE` |
| Console.Update | src/main/java/io/jenkins/plugins/dotnet/console/StatusScanner.java:49-56 | a line changes at most one counter, and a line that is not a summary changes neither |
| Console.ScanLines | src/main/java/io/jenkins/plugins/dotnet/console/StatusScanner.java:61-67 | the counters after any run of lines, starting from 0, each hold a value an `int` can carry |
| Console.CountMatchComplete | src/main/java/io/jenkins/plugins/dotnet/console/StatusScanner.java:43 | every line of spaces, digits and the suffix matches, capturing exactly those digits |
| Console.TrailingTextNoMatch | src/main/java/io/jenkins/plugins/dotnet/console/StatusScanner.java:40 | text after the suffix spoils the match, as the whole-line match with `$` demands |
| Console.LeadingTabIsOther | src/main/java/io/jenkins/plugins/dotnet/console/StatusScanner.java:40-43 | a line that starts with a tab matches neither pattern, since ` *` allows only spaces |
| Console.ErrorLineClassified | src/main/java/io/jenkins/plugins/dotnet/console/StatusScanner.java:49-51 | a full error summary line yields its number as the error count, or fails to parse when the number exceeds `Integer.MAX_VALUE` |
| Console.WarningLineClassified | src/main/java/io/jenkins/plugins/dotnet/console/StatusScanner.java:53-55 | a full warning summary line yields its number as the warning count, or fails to parse when it is too large |
| Console.WarningLineNoError | src/main/java/io/jenkins/plugins/dotnet/console/StatusScanner.java:49-53 | a line ending in ` Warning(s)` never matches the error pattern, so the warning pattern is reached |
| Console.SummaryLineShape | src/main/java/io/jenkins/plugins/dotnet/console/StatusScanner.java:49-56 | a line taken for a summary is exactly spaces, digits and the suffix, and the count is the value of those digits |
| Console.Decimal | src/main/java/io/jenkins/plugins/dotnet/console/StatusScanner.java:40 | a number's decimal form is a run of digits that `\d+` matches |
| Console.DigitsValueOfDecimal | src/main/java/io/jenkins/plugins/dotnet/console/StatusScanner.java:51 | parsing a number's decimal form gives the number back |
| Console.ParseIntDecimal | src/main/java/io/jenkins/plugins/dotnet/console/StatusScanner.java:51 | parsing a number's decimal form gives the number back when it fits an `int`, and fails otherwise |
| Console.SummaryRoundTrip | src/main/java/io/jenkins/plugins/dotnet/console/StatusScanner.java:49-55 | a summary line as MSBuild prints it, with any indentation, is read back as the count it reports |
| Console.StatusScanner.constructor | src/main/java/io/jenkins/plugins/dotnet/console/StatusScanner.java:61-67 | a new scanner has both counters at 0 and has passed nothing on |
| Console.StatusScanner.Eol | src/main/java/io/jenkins/plugins/dotnet/console/StatusScanner.java:46-59 | a summary line overwrites its counter and any other line changes nothing; the line is passed on unless the count does not fit an `int`; the counters stay those of the lines passed on |
| Console.StatusScanner.GetErrors | src/main/java/io/jenkins/plugins/dotnet/console/StatusScanner.java:63-65 | the error count is that of the lines passed on so far, and lies in the `int` range |
| Console.StatusScanner.GetWarnings | src/main/java/io/jenkins/plugins/dotnet/console/StatusScanner.java:69-71 | the warning count is that of the lines passed on so far, and lies in the `int` range |
| Console.LastErrorLineWins | src/main/java/io/jenkins/plugins/dotnet/console/StatusScanner.java:49-51 | counts are overwritten, not added up: the error count is the one on the last error summary line |
| Console.NoErrorLineZero | src/main/java/io/jenkins/plugins/dotnet/console/StatusScanner.java:61 | without any error summary line the error count stays 0 |
| Console.LastWarningLineWins | src/main/java/io/jenkins/plugins/dotnet/console/StatusScanner.java:53-55 | the warning count is the one on the last warning summary line |
| Console.NoWarningLineZero | src/main/java/io/jenkins/plugins/dotnet/console/StatusScanner.java:67 | without any warning summary line the warning count stays 0 |

## Left out

- Commands.ListPackage.SetFrameworks: takes the value `DotNetUtils.normalizeList` returned, not the user's raw text, because `DotNetUtils` is not part of this model. What that function returns is assumed to be null or items joined by single spaces, and this is a precondition.
- Commands.ListPackage.SetSources: takes the normalised value, for the same reason as SetFrameworks.
- MSBuild.Build.SetTargets: takes the normalised value, for the same reason as SetFrameworks.
- MSBuild.Build.AddCommandLineArguments: what `MSBuildCommand.addCommandLineArguments` adds is a parameter (`base`), because that class is not part of this model.
- Console.StatusScanner.Eol: works on decoded lines rather than bytes. Charset decoding and the byte-level `write` are not modelled, and `forwarded` records the lines passed on.
- Console.StatusScanner.Eol: where `Integer.parseInt` throws (a count above `Integer.MAX_VALUE`), the exception is modelled as `ok == false` with nothing changed and the line not passed on.
- Console.TrimEol: models Jenkins' `trimEOL` as removing every trailing CR and LF, because that function's source is not part of this model.
- Console.CountMatch: the two regular expressions are modelled directly as "spaces, ASCII digits, suffix, end of line", not through a regular-expression engine.
- The `run`, `resolver` and `sensitive` parameters of `addCommandLineArguments` are unused by these steps and not modelled.
- The getters of both steps only return the fields, which `Settings()` exposes.
- The descriptors' display names, help and localised message texts are not modelled. Messages are the two constants of `Commands.Message`.
- `close()` and the stream plumbing of the console filter are I/O and not modelled.
- A value equal to a flag token (a project named `--deprecated`, say) is not ruled out. The positional lemmas therefore state where each token stands, not that a flag occurs exactly once in the whole line.
