/** How `run` and `read` settle their options (src/index.ts). */
module Options {
  import opened Wrappers

  /** The overloaded second parameter: an argument list, an options object, or nothing. */
  datatype Second<O> = Args(list: seq<string>) | Opts(options: O) | Omitted

  /** `RunOptions`; every field may be left out. */
  datatype RunOptions = RunOptions(reject: Option<bool>, timestamp: Option<bool>, cwd: Option<string>)

  /** The values `ReadOptions.reject` may take: `true`/`false`, `"status"`, `"stderr"`. */
  datatype ReadReject = RejectFlag(on: bool) | RejectStatus | RejectStderr

  /** `ReadOptions`; every field may be left out. */
  datatype ReadOptions = ReadOptions(reject: Option<ReadReject>, cwd: Option<string>)

  /** The options object in force: a non-null `config` first, then an options
      object in the second position; an argument list supplies none. */
  function Settings<O>(second: Second<O>, config: Option<O>): (r: Option<O>)
    ensures config.Some? ==> r == config
    ensures r.None? <==> config.None? && !second.Opts?
    ensures r.Some? && config.None? ==> second == Opts(r.value)
  {
    if config.Some? then config
    else if second.Opts? then Some(second.options)
    else None
  }

  /** What `run` hands to the process library and to its streaming. */
  datatype RunSettings = RunSettings(reject: bool, timestamp: bool, cwd: Option<string>)

  function ResolveRun(second: Second<RunOptions>, config: Option<RunOptions>): (r: RunSettings)
    ensures var s := Settings(second, config);
            && (s.None? ==> r == RunSettings(true, true, None))
            && (s.Some? ==> r.cwd == s.value.cwd)
            && (s.Some? && s.value.reject.Some? ==> r.reject == s.value.reject.value)
            && (s.Some? && s.value.timestamp.Some? ==> r.timestamp == s.value.timestamp.value)
            && (s.Some? && s.value.reject.None? ==> r.reject)
            && (s.Some? && s.value.timestamp.None? ==> r.timestamp)
  {
    var s := Settings(second, config);
    RunSettings(
      if s.Some? then s.value.reject.GetOr(true) else true,
      if s.Some? then s.value.timestamp.GetOr(true) else true,
      if s.Some? then s.value.cwd else None)
  }

  /** `run` rejects on a failed command unless `reject: false` was given, and
      timestamps unless `timestamp: false` was given. */
  lemma RunOnlyExplicitFalseRelaxes(second: Second<RunOptions>, config: Option<RunOptions>)
    ensures var s := Settings(second, config);
            && (ResolveRun(second, config).reject <==> !(s.Some? && s.value.reject == Some(false)))
            && (ResolveRun(second, config).timestamp <==> !(s.Some? && s.value.timestamp == Some(false)))
  {
  }

  /** What `read` hands to the process library: `reject` (fail on a failed
      command) and `all` (capture stdout and stderr interleaved). */
  datatype ReadSettings = ReadSettings(reject: bool, all: bool, cwd: Option<string>)

  /** The pair (`reject`, `all`) for a `reject` option: `reject` holds when the
      option, read as `true` if unset, is `true` or "status"; `all` holds unless the
      option is exactly `true` or "stderr". */
  function ReadMode(reject: Option<ReadReject>): (r: (bool, bool))
    ensures r.0 <==> reject in {None, Some(RejectFlag(true)), Some(RejectStatus)}
    ensures !r.1 <==> reject in {Some(RejectFlag(true)), Some(RejectStderr)}
  {
    var rejectOnStatus := reject.GetOr(RejectFlag(true)) in {RejectFlag(true), RejectStatus};
    var all := !(reject == Some(RejectStderr) || reject == Some(RejectFlag(true)));
    (rejectOnStatus, all)
  }

  function ResolveRead(second: Second<ReadOptions>, config: Option<ReadOptions>): (r: ReadSettings)
    ensures var s := Settings(second, config);
            && (s.None? ==> r == ReadSettings(true, true, None))
            && (s.Some? ==> r.cwd == s.value.cwd && (r.reject, r.all) == ReadMode(s.value.reject))
  {
    var s := Settings(second, config);
    var mode := ReadMode(if s.Some? then s.value.reject else None);
    ReadSettings(mode.0, mode.1, if s.Some? then s.value.cwd else None)
  }

  /** The five ways to set `reject` on `read`, as (`reject`, `all`). */
  lemma ReadModeTable()
    ensures ReadMode(None) == (true, true)
    ensures ReadMode(Some(RejectFlag(true))) == (true, false)
    ensures ReadMode(Some(RejectStatus)) == (true, true)
    ensures ReadMode(Some(RejectFlag(false))) == (false, true)
    ensures ReadMode(Some(RejectStderr)) == (false, false)
  {
  }

  /** `"status"` behaves as leaving `reject` unset; every other pair of settings
      is told apart. */
  lemma ReadModeOnlyStatusIsDefault(a: Option<ReadReject>, b: Option<ReadReject>)
    ensures ReadMode(a) == ReadMode(b) <==> a == b || (a in {None, Some(RejectStatus)} && b in {None, Some(RejectStatus)})
  {
    ReadRejectCases(a);
    ReadRejectCases(b);
  }

  lemma ReadRejectCases(x: Option<ReadReject>)
    ensures x in {None, Some(RejectFlag(true)), Some(RejectFlag(false)), Some(RejectStatus), Some(RejectStderr)}
  {
    if x.Some? && x.value.RejectFlag? {
      if x.value.on { assert x == Some(RejectFlag(true)); } else { assert x == Some(RejectFlag(false)); }
    }
  }

  /** An explicit `config` wins over an options object in the second position. */
  lemma ConfigOverridesPositionalOptions<O>(positional: O, config: O)
    ensures Settings(Opts(positional), Some(config)) == Some(config)
    ensures ResolveRun(Opts(RunOptions(Some(true), Some(true), None)), Some(RunOptions(Some(false), None, Some("/tmp"))))
            == RunSettings(false, true, Some("/tmp"))
  {
  }

  /** An argument list never supplies options: `run(file, args)` and
      `read(file, args)` use the defaults unless a `config` follows. */
  lemma ArgumentListUsesDefaults(list: seq<string>)
    ensures ResolveRun(Args(list), None) == RunSettings(true, true, None)
    ensures ResolveRead(Args(list), None) == ReadSettings(true, true, None)
  {
  }
}
