/** `attach(worker)`: the `log`, `run` and `read` entries (src/index.ts).
    The process library is a parameter `execute`, the worker's tag a parameter
    `getTag`, and `node:util.inspect` a parameter `inspect`. */
module Toolkit {
  import opened Wrappers
  import opened JsText
  import opened Options
  import Printer

  datatype Stream = Stdout | Stderr

  /** A worker is verbose when its `printer` is the string `"verbose"`. */
  predicate IsVerbose(printer: string) {
    printer == Printer.Verbose
  }

  // ---------------------------------------------------------------- log

  /** A logged argument: a string, or any other value, which `inspect` renders. */
  datatype Value<T> = Str(text: string) | Other(value: T)

  /** Each argument as it is printed: a string as it stands, any other value as
      `inspect` renders it. */
  function RenderAll<T>(args: seq<Value<T>>, inspect: T -> string): (r: seq<string>)
    ensures |r| == |args|
    ensures forall k :: 0 <= k < |args| && args[k].Str? ==> r[k] == args[k].text
    ensures forall k :: 0 <= k < |args| && args[k].Other? ==> r[k] == inspect(args[k].value)
  {
    if args == [] then []
    else
      var first := match args[0] case Str(text) => text case Other(x) => inspect(x);
      [first] + RenderAll(args[1..], inspect)
  }

  /** The text `print` hands to the line decorator: the rendered arguments joined
      by single spaces, then a newline. */
  function Message<T>(args: seq<Value<T>>, inspect: T -> string): (r: string)
    ensures |r| >= 1 && r[|r| - 1] == '\n'
  {
    Join(RenderAll(args, inspect), " ") + "\n"
  }

  /** The message gives the rendered arguments back when split on spaces, as long
      as none of them holds a space. */
  lemma MessageRoundTrip<T>(args: seq<Value<T>>, inspect: T -> string)
    requires |args| >= 1
    requires forall k :: 0 <= k < |args| ==> ' ' !in RenderAll(args, inspect)[k]
    ensures var m := Message(args, inspect);
            Split(m[..|m| - 1], ' ') == RenderAll(args, inspect)
  {
    var parts := RenderAll(args, inspect);
    var m := Message(args, inspect);
    assert m[..|m| - 1] == Join(parts, [' ']);
    JoinSplitRoundTrip(parts, ' ');
  }

  /** `log`, `log.e` and `log.v`. */
  datatype Logger = Log | LogE | LogV

  datatype Emission = Emission(target: Stream, text: string)

  /** What one logger call writes, if anything. */
  function Emit<T>(logger: Logger, printer: string, args: seq<Value<T>>, inspect: T -> string): (r: Option<Emission>)
    ensures r.Some? <==> logger != LogV || IsVerbose(printer)
    ensures r.Some? ==> r.value.text == Message(args, inspect)
    ensures r.Some? ==> (r.value.target == Stdout <==> logger == Log)
  {
    match logger
    case Log => Some(Emission(Stdout, Message(args, inspect)))
    case LogE => Some(Emission(Stderr, Message(args, inspect)))
    case LogV => if IsVerbose(printer) then Some(Emission(Stderr, Message(args, inspect))) else None
  }

  /** `log.v` is `log.e` gated on the verbose printer. */
  lemma VerboseLogIsGatedErrorLog<T>(printer: string, args: seq<Value<T>>, inspect: T -> string)
    ensures Emit(LogV, printer, args, inspect) == if IsVerbose(printer) then Emit(LogE, printer, args, inspect) else None
  {
  }

  // ---------------------------------------------------------------- process library

  /** How the command reaches the process library: `execa(file, args, …)` for
      an argument list, the `$` template form for a single command string. */
  datatype Form = File(file: string, arguments: seq<string>) | Script(command: string)

  function FormOf<O>(command: string, second: Second<O>): (r: Form)
    ensures r.File? <==> second.Args?
    ensures r.File? ==> r.file == command && r.arguments == second.list
    ensures r.Script? ==> r.command == command
  {
    if second.Args? then File(command, second.list) else Script(command)
  }

  /** What the process library returns for a finished process. */
  datatype ProcessResult = ProcessResult(exitCode: int, stdout: Option<string>, stderr: string, all: Option<string>)

  /** A call to the process library either finishes or throws `error`. */
  datatype Exec<E> = Completed(result: ProcessResult) | Rejected(error: E)

  // ---------------------------------------------------------------- run

  datatype RunCall = RunCall(form: Form, reject: bool, cwd: Option<string>)

  /** Which tag a forwarded stream is decorated with. */
  datatype TagKind = WorkerTag | ErrorTag

  /** The tag text: the worker's own `getTag` (given whatever options the
      decorator asks with) or `"E"` before `getTag()` called without options. */
  function TagText<O>(kind: TagKind, getTag: Option<O> -> string, requested: Option<O>): (r: string)
    ensures kind == WorkerTag ==> r == getTag(requested)
    ensures kind == ErrorTag ==> |r| == |getTag(None)| + 1 && r[0] == 'E' && r[1..] == getTag(None)
  {
    match kind
    case WorkerTag => getTag(requested)
    case ErrorTag => "E" + getTag(None)
  }

  /** The stderr tag does not depend on the options the decorator asks with: it
      is always `"E"` before the stdout tag as asked for with no options. */
  lemma ErrorTagIsMarkedWorkerTag<O>(getTag: Option<O> -> string, requested: Option<O>)
    ensures TagText(ErrorTag, getTag, requested) == "E" + TagText(WorkerTag, getTag, None)
  {
  }

  /** One stream of the child forwarded to the same stream of this process. */
  datatype Tee = Tee(stream: Stream, tag: TagKind, timestamp: bool)

  function Tees(printer: string, timestamp: bool): (r: seq<Tee>)
    ensures |r| == if IsVerbose(printer) then 2 else 0
    ensures forall k :: 0 <= k < |r| ==> r[k].timestamp == timestamp
    ensures forall k :: 0 <= k < |r| ==> (r[k].tag == ErrorTag <==> r[k].stream == Stderr)
    ensures |r| == 2 ==> r[0].stream == Stdout && r[1].stream == Stderr
  {
    if IsVerbose(printer) then [Tee(Stdout, WorkerTag, timestamp), Tee(Stderr, ErrorTag, timestamp)] else []
  }

  /** The status reported before the command runs: the command alone, or the
      file and every argument separated by single spaces. */
  function Status<O>(command: string, second: Second<O>): (r: string)
    ensures !second.Args? || second.list == [] ==> r == command
    ensures second.Args? && second.list != [] ==> r == command + " " + Join(second.list, " ")
  {
    if second.Args? then Join([command] + second.list, " ") else command
  }

  /** When no word holds a space, the status splits back into the file and its
      arguments. */
  lemma StatusRoundTrip(command: string, list: seq<string>)
    requires ' ' !in command
    requires forall k :: 0 <= k < |list| ==> ' ' !in list[k]
    ensures Split(Status<RunOptions>(command, Args(list)), ' ') == [command] + list
  {
    JoinSplitRoundTrip([command] + list, ' ');
  }

  /** Everything `run` does, in order: the call it makes, the status it reports,
      the streams it forwards, and what it returns. */
  datatype RunTrace<E> = RunTrace(call: RunCall, status: string, tees: seq<Tee>, outcome: Result<int, E>)

  function Run<E>(command: string, second: Second<RunOptions>, config: Option<RunOptions>,
                  printer: string, execute: RunCall -> Exec<E>): (r: RunTrace<E>)
    ensures var s := ResolveRun(second, config);
            && r.call == RunCall(FormOf(command, second), s.reject, s.cwd)
            && r.status == Status(command, second)
            && r.tees == Tees(printer, s.timestamp)
    ensures execute(r.call).Rejected? ==> r.outcome == Failure(execute(r.call).error)
    ensures execute(r.call).Completed? ==> r.outcome == Success(execute(r.call).result.exitCode)
  {
    var s := ResolveRun(second, config);
    var call := RunCall(FormOf(command, second), s.reject, s.cwd);
    var outcome := match execute(call)
      case Completed(result) => Success(result.exitCode)
      case Rejected(error) => Failure(error);
    RunTrace(call, Status(command, second), Tees(printer, s.timestamp), outcome)
  }

  /** A process library that honours `reject: false` (never throws for it) makes
      `run(…, {reject: false})` return the exit code, zero or not. */
  lemma RunWithoutRejectReturnsExitCode<E>(command: string, second: Second<RunOptions>, config: Option<RunOptions>,
                                           printer: string, execute: RunCall -> Exec<E>)
    requires forall c: RunCall :: !c.reject ==> execute(c).Completed?
    requires Settings(second, config).Some? && Settings(second, config).value.reject == Some(false)
    ensures Run(command, second, config, printer, execute).outcome.Success?
    ensures var c := Run(command, second, config, printer, execute).call;
            Run(command, second, config, printer, execute).outcome.value == execute(c).result.exitCode
  {
  }

  // ---------------------------------------------------------------- read

  datatype ReadCall = ReadCall(form: Form, reject: bool, all: bool, cwd: Option<string>)

  /** `read` fails either with the process library's own error or with an error
      whose message is the child's stderr. */
  datatype ReadError<E> = CommandFailed(error: E) | StderrContent(message: string)

  predicate HasNonWhiteSpace(s: string) {
    exists i :: 0 <= i < |s| && !IsWhiteSpace(s[i])
  }

  /** The tail of `read` once the process library has answered. */
  function Finish<E>(all: bool, exec: Exec<E>): (r: Result<string, ReadError<E>>)
    ensures exec.Rejected? ==> r == Failure(CommandFailed(exec.error))
    ensures r.Failure? && r.error.StderrContent?
            <==> exec.Completed? && !all && HasNonWhiteSpace(exec.result.stderr)
    ensures r.Failure? && r.error.StderrContent? ==> r.error.message == exec.result.stderr
    ensures exec.Completed? && (all || !HasNonWhiteSpace(exec.result.stderr)) ==> r.Success?
    ensures r.Success? ==> exec.Completed? && r.value == Trim(if all then exec.result.all.GetOr("")
                                                              else exec.result.stdout.GetOr(""))
  {
    match exec
    case Rejected(error) => Failure(CommandFailed(error))
    case Completed(result) =>
      TrimEmptyIff(result.stderr);
      if !all then
        if |Trim(result.stderr)| > 0 then Failure(StderrContent(result.stderr))
        else Success(if result.stdout.Some? && result.stdout.value != "" then Trim(result.stdout.value) else "")
      else
        Success(if result.all.Some? && result.all.value != "" then Trim(result.all.value) else "")
  }

  function Read<E>(command: string, second: Second<ReadOptions>, config: Option<ReadOptions>,
                   execute: ReadCall -> Exec<E>): (r: Result<string, ReadError<E>>)
    ensures var s := ResolveRead(second, config);
            var call := ReadCall(FormOf(command, second), s.reject, s.all, s.cwd);
            r == Finish(s.all, execute(call))
  {
    var s := ResolveRead(second, config);
    Finish(s.all, execute(ReadCall(FormOf(command, second), s.reject, s.all, s.cwd)))
  }

  /** With `reject` left unset (or `"status"`/`false`), `read` captures combined
      output and never fails on stderr content. */
  lemma ReadCombinedNeverFailsOnStderr<E>(command: string, second: Second<ReadOptions>, config: Option<ReadOptions>,
                                          execute: ReadCall -> Exec<E>)
    requires ResolveRead(second, config).all
    ensures var r := Read(command, second, config, execute);
            r.Failure? ==> r.error.CommandFailed?
  {
  }

  /** `read(command)` with no options at all captures combined output. */
  lemma ReadDefaultCombines<E>(command: string, second: Second<ReadOptions>, execute: ReadCall -> Exec<E>)
    requires !second.Opts?
    ensures ResolveRead(second, None).all && ResolveRead(second, None).reject
    ensures var r := Read(command, second, None, execute);
            r.Failure? ==> r.error.CommandFailed?
  {
  }

  /** With `reject: true` or `"stderr"`, a completed command with any visible
      stderr fails, carrying that stderr untrimmed. */
  lemma ReadFailsOnVisibleStderr<E>(command: string, second: Second<ReadOptions>, config: Option<ReadOptions>,
                                    execute: ReadCall -> Exec<E>)
    requires var s := Settings(second, config);
             s.Some? && s.value.reject in {Some(RejectFlag(true)), Some(RejectStderr)}
    requires var s := ResolveRead(second, config);
             var e := execute(ReadCall(FormOf(command, second), s.reject, s.all, s.cwd));
             e.Completed? && HasNonWhiteSpace(e.result.stderr)
    ensures var s := ResolveRead(second, config);
            var e := execute(ReadCall(FormOf(command, second), s.reject, s.all, s.cwd));
            Read(command, second, config, execute) == Failure(StderrContent(e.result.stderr))
  {
  }

  /** Whatever `read` returns is trimmed: it neither starts nor ends with white space. */
  lemma ReadResultIsTrimmed<E>(command: string, second: Second<ReadOptions>, config: Option<ReadOptions>,
                               execute: ReadCall -> Exec<E>)
    ensures var r := Read(command, second, config, execute);
            r.Success? && r.value != [] ==> !IsWhiteSpace(r.value[0]) && !IsWhiteSpace(r.value[|r.value| - 1])
  {
    var s := ResolveRead(second, config);
    var e := execute(ReadCall(FormOf(command, second), s.reject, s.all, s.cwd));
    var r := Read(command, second, config, execute);
    assert r == Finish(s.all, e);
    if r.Success? {
      assert r.value == Trim(if s.all then e.result.all.GetOr("") else e.result.stdout.GetOr(""));
    }
  }

  /** `read(command, {reject: false})` on a command that printed "hello\n" and
      nothing on stderr returns "hello". */
  lemma ReadSample<E>(command: string, execute: ReadCall -> Exec<E>)
    requires execute(ReadCall(Script(command), false, true, None)) == Completed(ProcessResult(0, Some("hello\n"), "", Some("hello\n")))
    ensures Read(command, Opts(ReadOptions(Some(RejectFlag(false)), None)), None, execute) == Success("hello")
  {
    var opts: Second<ReadOptions> := Opts(ReadOptions(Some(RejectFlag(false)), None));
    assert ResolveRead(opts, None) == ReadSettings(false, true, None);
    assert FormOf(command, opts) == Script(command);
    assert LeadingWhiteSpace("hello\n") == 0 by { assert !IsWhiteSpace('h'); }
    assert ContentEnd("hello\n") == 5 by {
      assert "hello\n"[..5] == "hello";
      assert !IsWhiteSpace('o');
    }
    assert "hello\n"[0..5] == "hello";
  }
}
