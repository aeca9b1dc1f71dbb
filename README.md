# listr2-toolkit, modelled in Dafny

`attach(worker)` gives a listr2-scheduler worker three things: a logger (`log`, `log.e`,
`log.v`), `run` (spawn a command and return its exit code, forwarding its output with tags
when the worker prints verbosely), and `read` (spawn a command and return its trimmed output,
or fail). `selectPrinter(args, forceVerbose)` picks the worker's printer mode, `"verbose"` or
`"vivid"`, from the command line.

Process spawning (execa), line decoration (`decorateLines`) and the worker itself belong to
other libraries. This model keeps the logic that `src/index.ts` owns:

- `wrappers.dfy` (`Wrappers`): `Option` (`undefined`/`null` or a value) and `Result` (a value or a thrown error).
- `jstext.dfy` (`JsText`): the JavaScript string semantics the code relies on. It covers the
  LineTerminator code points that a regex `.` refuses. It covers `trim` over ECMAScript
  WhiteSpace and LineTerminator, written out as the full code-point list. It covers `join`.
  `Split` is an independent definition that `join` is proved against.
- `printer.dfy` (`Printer`): the `verbosity` pattern. It is written once alternative by
  alternative (`MatchesVerbosity`) and once as a direct test (`IsVerbosityFlag`), and the two
  are proved equal. `selectPrinter` is defined from the direct test.
- `options.dfy` (`Options`): the overloaded second parameter as `Args | Opts | Omitted`. It
  covers which options object is used and the defaults and settings for `run` and `read`.
- `toolkit.dfy` (`Toolkit`): the message `print` builds and `log.v` gating. It covers the
  call `run` makes, the status it reports, the streams it forwards with their tags, and its
  result. It also covers the call `read` makes and how the answer becomes a string or an error.
  The process library is a function parameter `execute` from the call to
  `Completed(result) | Rejected(error)`. The worker's tag function is a parameter `getTag`,
  and `node:util.inspect` is a parameter `inspect`.

Three behaviours of `src/index.ts` worth stating plainly:

- With no options, `read` sets `all = true` (src/index.ts:91). So by default it captures
  combined output and never fails on stderr content.
- The stderr tag is `"E"` put in front of `getTag()`, with nothing else rewritten
  (src/index.ts:76).
- The non-verbose printer mode is named `"vivid"` (src/index.ts:115).

## Model

| member | source | states |
|---|---|---|
| `JsText.IsWhiteSpace` | src/index.ts:98 | the characters `trim` removes include every line terminator, are all single UTF-16 code units, and include no ASCII letter or digit |
| `JsText.LeadingWhiteSpace` | src/index.ts:98 | the number of characters `trim` cuts from the front: all before it are white space, the one at it is not |
| `JsText.ContentEnd` | src/index.ts:101 | where the text ends once trailing white space is cut: all from it on are white space, the one before it is not |
| `JsText.Trim` | src/index.ts:104 | `trim` yields the slice of the input after its leading white space, with only white space after the slice, and it neither starts nor ends with white space |
| `JsText.TrimEmptyIff` | src/index.ts:98 | the trimmed stderr is empty exactly when stderr is all white space |
| `JsText.TrimIdempotent` | src/index.ts:104 | trimming an already trimmed text changes nothing |
| `JsText.Join` | src/index.ts:43 | joining no parts gives `""`; otherwise the result starts with the first part and ends with the last |
| `JsText.JoinSplitRoundTrip` | src/index.ts:71 | `join` with a one-character separator is undone by splitting on it, when no part holds that character |
| `Printer.VerboseAlternativeSubsumed` | src/index.ts:109 | the `-verbose` alternative of the pattern is already matched by `.*v.*` |
| `Printer.MatchesVerbosity` | src/index.ts:109 | the pattern read alternative by alternative (anchored, `.` excluding line terminators); whatever it matches starts with `-` and has a `v` after index 0 |
| `Printer.IsVerbosityFlag` | src/index.ts:114 | the test applied to each argument accepts exactly the strings the `verbosity` pattern matches |
| `Printer.DirectTestMatches` | src/index.ts:109 | a string that starts with `-`, has a `v` after index 0 and has no line terminator matches the pattern |
| `Printer.AnyVAnyPassesDirectTest` | src/index.ts:109 | whatever `.*v.*` matches holds a `v` and no line terminator |
| `Printer.MatchPassesDirectTest` | src/index.ts:109 | a string the pattern matches starts with `-`, has a `v` after index 0 and has no line terminator |
| `Printer.DirectTestIffMatches` | src/index.ts:109 | an argument matches the `verbosity` pattern iff it starts with `-`, has a `v` after index 0 and has no line terminator |
| `Printer.AnyVerbosityFlag` | src/index.ts:114 | `args.some(...)` is true iff some argument passes the verbosity test |
| `Printer.SelectPrinter` | src/index.ts:110-116 | the mode is `"verbose"` or `"vivid"`; forcing gives `"verbose"`; otherwise `"verbose"` iff some argument passes the test |
| `Printer.SelectPrinterFollowsPattern` | src/index.ts:109-116 | the mode is `"verbose"` iff forced or some argument matches the pattern itself |
| `Printer.SelectPrinterEmpty` | src/index.ts:114-115 | no arguments and no forcing give `"vivid"` |
| `Printer.SelectPrinterVerboseSamples` | src/index.ts:109-116 | `--verbose`, `-v` and `-xv` later in the list select `"verbose"`, as does forcing with `-x` |
| `Printer.SelectPrinterVividSamples` | src/index.ts:109-116 | `-x`, `v`, `-` and `-v` followed by a newline select `"vivid"` |
| `Options.Settings` | src/index.ts:61-62 | a non-null `config` is used; otherwise an options object in the second position; an argument list or nothing yields no options |
| `Options.ResolveRun` | src/index.ts:61-66 | `reject` and `timestamp` are taken from the options when set and default to true; `cwd` passes through unchanged |
| `Options.RunOnlyExplicitFalseRelaxes` | src/index.ts:63-65 | `run` rejects unless `reject: false` is given, and timestamps unless `timestamp: false` is given |
| `Options.ReadMode` | src/index.ts:90-91 | `reject` holds iff the option is unset, `true` or `"status"`; `all` fails iff it is `true` or `"stderr"` |
| `Options.ResolveRead` | src/index.ts:88-92 | without options `read` uses `reject = all = true`; otherwise `(reject, all)` follow the option's mode and `cwd` passes through |
| `Options.ReadModeTable` | src/index.ts:90-91 | the five-row table: unset (true, true), `true` (true, false), `"status"` (true, true), `false` (false, true), `"stderr"` (false, false) |
| `Options.ReadModeOnlyStatusIsDefault` | src/index.ts:90-91 | two `reject` options give the same pair iff they are equal, or both are unset or `"status"` |
| `Options.ConfigOverridesPositionalOptions` | src/index.ts:61-62 | an explicit `config` overrides an options object given in the second position |
| `Options.ArgumentListUsesDefaults` | src/index.ts:61-63 | `run(file, args)` and `read(file, args)` without `config` use the default settings |
| `Toolkit.RenderAll` | src/index.ts:42 | each argument is printed as it stands when it is a string and as `inspect` renders it otherwise, one entry per argument |
| `Toolkit.Message` | src/index.ts:42-43 | the text handed to the decorator ends with a newline |
| `Toolkit.MessageRoundTrip` | src/index.ts:42-43 | the message without its newline splits on spaces back into the rendered arguments, when none holds a space |
| `Toolkit.Emit` | src/index.ts:46-51 | `log` writes the message to stdout and `log.e` to stderr; `log.v` writes only for a `"verbose"` printer |
| `Toolkit.VerboseLogIsGatedErrorLog` | src/index.ts:49-51 | `log.v` behaves as `log.e` under the verbose printer and writes nothing otherwise |
| `Toolkit.FormOf` | src/index.ts:67-69 | an argument list goes to `execa(file, args)`, with the list unchanged; otherwise the command goes to the `$` template form |
| `Toolkit.TagText` | src/index.ts:74-76 | the stdout tag is the worker's `getTag` with the options the decorator asks for; the stderr tag is `"E"` followed by `getTag()` called without options |
| `Toolkit.ErrorTagIsMarkedWorkerTag` | src/index.ts:74-76 | the stderr tag ignores the options the decorator asks with: it is always `"E"` before the stdout tag asked for with no options |
| `Toolkit.Tees` | src/index.ts:73-78 | only a verbose worker forwards output: stdout with the worker's tag, stderr with the `E` tag, both timestamped per the setting |
| `Toolkit.Status` | src/index.ts:70-72 | the status is the command alone without an argument list; otherwise the command, a space and the arguments joined by spaces |
| `Toolkit.StatusRoundTrip` | src/index.ts:71 | the status splits on spaces back into the file and its arguments when none holds a space |
| `Toolkit.Run` | src/index.ts:55-81 | `run` calls with the resolved `reject` and `cwd`, reports the status, and forwards streams per the printer. It returns the exit code or passes the library's error through unchanged |
| `Toolkit.RunWithoutRejectReturnsExitCode` | src/index.ts:63-80 | with `reject: false`, and a process library that does not throw for it, `run` returns the exit code |
| `Toolkit.Finish` | src/index.ts:96-104 | a library error passes through; a stderr-content error happens iff `all` is off and stderr has a non-white-space character, and carries the untrimmed stderr; every other completed call succeeds with the trimmed stdout (or combined output when `all` is on), `""` when absent |
| `Toolkit.Read` | src/index.ts:82-105 | `read` calls with the resolved `reject`, `all` and `cwd` in the form the second argument picks, and finishes on `all` |
| `Toolkit.ReadCombinedNeverFailsOnStderr` | src/index.ts:91-104 | whenever `all` is on, `read` never raises a stderr-content error |
| `Toolkit.ReadDefaultCombines` | src/index.ts:88-104 | `read` without options has `reject` and `all` on and never fails on stderr content |
| `Toolkit.ReadFailsOnVisibleStderr` | src/index.ts:90-99 | with `reject: true` or `"stderr"`, a completed command with visible stderr fails with that stderr, untrimmed |
| `Toolkit.ReadResultIsTrimmed` | src/index.ts:97-104 | a successful `read` result neither starts nor ends with white space |
| `Toolkit.ReadSample` | src/index.ts:82-104 | `read(cmd, {reject: false})` on output `"hello\n"` with empty stderr returns `"hello"` |

## Left out

- Spawning through execa, the dynamic `import("execa")`, `await` and promises. The library's
  answer is the parameter `execute`. Whether it throws for a failed command is its own
  behaviour, so `RunWithoutRejectReturnsExitCode` assumes it honours `reject: false`.
- `decorateLines`: how lines are split, tagged and timestamped. It belongs to listr2-scheduler,
  so the model stops at the text, stream, tag and timestamp setting it receives.
- `node:util.inspect`: it is the parameter `inspect`.
- Writes to `process.stdout`/`process.stderr` and `worker.reportStatus`. The model gives only
  the text and the target stream (`Emission`, `Status`).
- The `sub.stdout &&` / `sub.stderr &&` guards: a child stream that execa does not expose is
  not forwarded. The model assumes both streams are present.
- `tsa`: it only packs the command into the template-call convention of `$`.
- The return value of `log.v` (`false` or `undefined`), which no caller uses.
- `SelectPrinter`: `forceVerbose` is an arbitrary JavaScript value. The model takes its truthiness as a `bool`.
- `Trim`: JavaScript strings are UTF-16 code units, and Dafny characters are Unicode scalar
  values. Lone surrogates cannot be written. Every character `trim` removes is in the Basic
  Multilingual Plane, so the rest agrees.
- Options of the wrong runtime type (for example a `reject` that is a number) are ruled out by the datatypes.
