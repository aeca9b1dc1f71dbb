/** `selectPrinter` and the `verbosity` pattern `^-(-verbose|.*v.*)$` (src/index.ts). */
module Printer {
  import opened JsText

  const Verbose: string := "verbose"
  const Vivid: string := "vivid"

  /** What `.*` matches in a JavaScript regular expression without the `s` flag. */
  predicate NoLineTerminator(s: string) {
    forall i :: 0 <= i < |s| ==> !IsLineTerminator(s[i])
  }

  /** `.*v.*` matching all of `t`. */
  ghost predicate MatchesAnyVAny(t: string) {
    exists k :: 0 <= k < |t| && t[k] == 'v' && NoLineTerminator(t[..k]) && NoLineTerminator(t[k + 1..])
  }

  /** The pattern read alternative by alternative: a leading `-`, then either
      `-verbose` or `.*v.*`, anchored at both ends (no `m` flag). */
  ghost predicate MatchesVerbosity(s: string)
    ensures MatchesVerbosity(s) ==> |s| >= 2 && s[0] == '-' && 'v' in s[1..]
  {
    |s| >= 1 && s[0] == '-' && (s[1..] == "-verbose" || MatchesAnyVAny(s[1..]))
  }

  /** The pattern as a direct test: a leading `-`, a `v` somewhere after it,
      and no line terminator anywhere. It accepts exactly what the pattern matches. */
  predicate IsVerbosityFlag(s: string)
    ensures IsVerbosityFlag(s) <==> MatchesVerbosity(s)
  {
    DirectTestIffMatches(s);
    |s| >= 1 && s[0] == '-' && 'v' in s[1..] && NoLineTerminator(s)
  }

  /** The `-verbose` alternative adds nothing: `.*v.*` already matches it. */
  lemma VerboseAlternativeSubsumed(s: string)
    requires |s| >= 1 && s[1..] == "-verbose"
    ensures MatchesAnyVAny(s[1..])
  {
    var t := s[1..];
    assert t[1] == 'v' && NoLineTerminator(t[..1]) && NoLineTerminator(t[2..]);
  }

  /** A string has no line terminator iff its first character is none and its
      tail has none. */
  lemma NoLineTerminatorTail(s: string)
    requires |s| >= 1
    ensures NoLineTerminator(s) <==> !IsLineTerminator(s[0]) && NoLineTerminator(s[1..])
  {
    if !IsLineTerminator(s[0]) && NoLineTerminator(s[1..]) {
      forall i | 1 <= i < |s| ensures !IsLineTerminator(s[i]) { assert s[i] == s[1..][i - 1]; }
    }
  }

  /** A string has no line terminator iff the parts before and after position
      `k`, and the character at `k`, have none. */
  lemma NoLineTerminatorAround(t: string, k: nat)
    requires k < |t|
    ensures NoLineTerminator(t) <==> NoLineTerminator(t[..k]) && !IsLineTerminator(t[k]) && NoLineTerminator(t[k + 1..])
  {
    var before, after := t[..k], t[k + 1..];
    if NoLineTerminator(t) {
      forall i | 0 <= i < |before| ensures !IsLineTerminator(before[i]) { assert before[i] == t[i]; }
      forall i | 0 <= i < |after| ensures !IsLineTerminator(after[i]) { assert after[i] == t[k + 1 + i]; }
    }
    if NoLineTerminator(before) && !IsLineTerminator(t[k]) && NoLineTerminator(after) {
      forall i | 0 <= i < |t| ensures !IsLineTerminator(t[i]) {
        if i < k { assert t[i] == before[i]; } else if i > k { assert t[i] == after[i - k - 1]; }
      }
    }
  }

  /** Every string the direct test accepts is matched by `.*v.*` after the dash. */
  lemma DirectTestMatches(s: string)
    requires |s| >= 1 && s[0] == '-' && 'v' in s[1..] && NoLineTerminator(s)
    ensures MatchesVerbosity(s)
  {
    var t := s[1..];
    NoLineTerminatorTail(s);
    var k :| 0 <= k < |t| && t[k] == 'v';
    NoLineTerminatorAround(t, k);
  }

  /** Whatever `.*v.*` matches holds a `v` and no line terminator. */
  lemma AnyVAnyPassesDirectTest(t: string)
    requires MatchesAnyVAny(t)
    ensures 'v' in t && NoLineTerminator(t)
  {
    var k :| 0 <= k < |t| && t[k] == 'v' && NoLineTerminator(t[..k]) && NoLineTerminator(t[k + 1..]);
    NoLineTerminatorAround(t, k);
  }

  /** Every string the pattern matches passes the direct test. */
  lemma MatchPassesDirectTest(s: string)
    requires MatchesVerbosity(s)
    ensures |s| >= 1 && s[0] == '-' && 'v' in s[1..] && NoLineTerminator(s)
  {
    if s[1..] == "-verbose" { VerboseAlternativeSubsumed(s); }
    AnyVAnyPassesDirectTest(s[1..]);
    NoLineTerminatorTail(s);
  }

  /** The direct test and the pattern accept the same strings. */
  lemma DirectTestIffMatches(s: string)
    ensures (|s| >= 1 && s[0] == '-' && 'v' in s[1..] && NoLineTerminator(s)) <==> MatchesVerbosity(s)
  {
    if |s| >= 1 && s[0] == '-' && 'v' in s[1..] && NoLineTerminator(s) { DirectTestMatches(s); }
    if MatchesVerbosity(s) { MatchPassesDirectTest(s); }
  }

  /** Whether at least one argument matches the verbosity pattern. */
  function AnyVerbosityFlag(args: seq<string>): (r: bool)
    ensures r <==> exists i :: 0 <= i < |args| && IsVerbosityFlag(args[i])
  {
    if args == [] then false
    else IsVerbosityFlag(args[0]) || AnyVerbosityFlag(args[1..])
  }

  /** `selectPrinter(args, forceVerbose)`, with `forceVerbose` given as its
      JavaScript truthiness. */
  function SelectPrinter(args: seq<string>, forceVerbose: bool): (r: string)
    ensures r == Verbose || r == Vivid
    ensures forceVerbose ==> r == Verbose
    ensures !forceVerbose ==> (r == Verbose <==> exists i :: 0 <= i < |args| && IsVerbosityFlag(args[i]))
  {
    if forceVerbose || AnyVerbosityFlag(args) then Verbose else Vivid
  }

  /** The selector in terms of the pattern itself: verbose exactly when forced or
      when some argument matches `^-(-verbose|.*v.*)$`. */
  lemma SelectPrinterFollowsPattern(args: seq<string>, forceVerbose: bool)
    ensures SelectPrinter(args, forceVerbose) == Verbose
            <==> forceVerbose || exists i :: 0 <= i < |args| && MatchesVerbosity(args[i])
  {
  }

  /** Without arguments and without forcing, the mode is `vivid`. */
  lemma SelectPrinterEmpty()
    ensures SelectPrinter([], false) == Vivid
  {
  }

  /** Sample arguments that select verbose: `--verbose`, `-v`, `-xv` anywhere in
      the list, and anything at all when forced. */
  lemma SelectPrinterVerboseSamples()
    ensures SelectPrinter(["--verbose"], false) == Verbose
    ensures SelectPrinter(["-v"], false) == Verbose
    ensures SelectPrinter(["build", "-xv"], false) == Verbose
    ensures SelectPrinter(["-x"], true) == Verbose
  {
    assert "--verbose"[1..][1] == 'v';
    assert "-v"[1..][0] == 'v';
    assert "-xv"[1..][1] == 'v';
    assert IsVerbosityFlag(["build", "-xv"][1]);
  }

  /** Sample arguments that do not: `-x` (no `v`), `v` (no dash), `-` (nothing
      after the dash) and `-v` followed by a newline (`.` stops at it). */
  lemma SelectPrinterVividSamples()
    ensures SelectPrinter(["-x"], false) == Vivid
    ensures SelectPrinter(["v"], false) == Vivid
    ensures SelectPrinter(["-"], false) == Vivid
    ensures SelectPrinter(["-v\n"], false) == Vivid
  {
    assert !IsVerbosityFlag("-x") && !IsVerbosityFlag("v") && !IsVerbosityFlag("-");
    assert !IsVerbosityFlag("-v\n") by { assert IsLineTerminator("-v\n"[2]); }
  }
}
