/** The cargo wrapper (scripts/locked-bin/cargo): one pass over the arguments that adds
    --locked before the separator and renames the Android target, and the file of lines through
    which the rewritten arguments reach the real cargo. */
module CargoWrapper {
  import opened Text

  const LOCKED := "--locked"
  const TARGET := "--target"
  const SEPARATOR := "--"
  const OLD_TARGET := "aarch64-unknown-android"
  const NEW_TARGET := "aarch64-linux-android"

  predicate RequiresLocked(subcommand: string) {
    subcommand == "build" || subcommand == "metadata"
  }

  // ---------------------------------------------------------------- the loop

  /** The loop's variables; `pending` says that the next argument is a target. */
  datatype State = State(pending: bool, hasLocked: bool, cargoOptions: bool, output: seq<string>)

  const Begin := State(false, false, true, [])

  /** The value of --target is renamed, everything else is kept. */
  function Rename(argument: string, pending: bool): string {
    if pending && argument == OLD_TARGET then NEW_TARGET else argument
  }

  /** The argument makes the next one a target. */
  predicate Asks(argument: string, pending: bool) {
    !pending && argument == TARGET
  }

  /** One argument. */
  function Turn(s: State, argument: string, locked: bool): State {
    if !s.cargoOptions then s.(output := s.output + [argument])
    else if argument == SEPARATOR && !s.pending then
      if locked && !s.hasLocked then
        s.(hasLocked := true, cargoOptions := false, output := s.output + [LOCKED, argument])
      else s.(cargoOptions := false, output := s.output + [argument])
    else
      var renamed := Rename(argument, s.pending);
      State(Asks(argument, s.pending), s.hasLocked || renamed == LOCKED, true, s.output + [renamed])
  }

  function Turns(s: State, arguments: seq<string>, locked: bool): State
    decreases |arguments|
  {
    if arguments == [] then s else Turns(Turn(s, arguments[0], locked), arguments[1..], locked)
  }

  /** All arguments, and --locked at the end when none was seen before. */
  function Rewrite(arguments: seq<string>, locked: bool): seq<string> {
    var s := Turns(Begin, arguments, locked);
    if locked && !s.hasLocked then s.output + [LOCKED] else s.output
  }

  // ---------------------------------------------------------------- what the loop computes

  /** Where cargo's own options end: the first separator that is not the value of --target. */
  function EndOfOptions(arguments: seq<string>, pending: bool): (n: nat)
    ensures n <= |arguments|
    decreases |arguments|
  {
    if arguments == [] || (!pending && arguments[0] == SEPARATOR) then 0
    else 1 + EndOfOptions(arguments[1..], Asks(arguments[0], pending))
  }

  /** The options with every target renamed. */
  function Retarget(options: seq<string>, pending: bool): (r: seq<string>)
    ensures |r| == |options|
    decreases |options|
  {
    if options == [] then [] else [Rename(options[0], pending)] + Retarget(options[1..], Asks(options[0], pending))
  }

  /** The options as cargo gets them: retargeted, and locked when that is required. */
  function LockedOptions(options: seq<string>, locked: bool): seq<string> {
    var r := Retarget(options, false);
    if locked && LOCKED !in r then r + [LOCKED] else r
  }

  /** Whether the last option asks for a target that is not there. */
  predicate Dangling(options: seq<string>, pending: bool)
    decreases |options|
  {
    if options == [] then pending else Dangling(options[1..], Asks(options[0], pending))
  }

  lemma {:induction false} AfterSeparator(s: State, arguments: seq<string>, locked: bool)
    requires !s.cargoOptions
    ensures Turns(s, arguments, locked) == s.(output := s.output + arguments)
    decreases |arguments|
  {
    if arguments == [] {
      assert s.output + arguments == s.output;
    } else {
      var t := Turn(s, arguments[0], locked);
      AfterSeparator(t, arguments[1..], locked);
      assert t.output + arguments[1..] == s.output + arguments;
    }
  }

  lemma {:induction false} TurnsConcatenate(s: State, a: seq<string>, b: seq<string>, locked: bool)
    ensures Turns(s, a + b, locked) == Turns(Turns(s, a, locked), b, locked)
    decreases |a|
  {
    if a == [] {
      assert a + b == b;
    } else {
      assert (a + b)[1..] == a[1..] + b;
      TurnsConcatenate(Turn(s, a[0], locked), a[1..], b, locked);
    }
  }

  /** Before the separator the loop only renames. */
  lemma {:induction false} TurnsRetarget(s: State, options: seq<string>, locked: bool)
    requires s.cargoOptions && EndOfOptions(options, s.pending) == |options|
    ensures Turns(s, options, locked)
         == State(Dangling(options, s.pending), s.hasLocked || LOCKED in Retarget(options, s.pending), true,
                  s.output + Retarget(options, s.pending))
    decreases |options|
  {
    if options == [] {
      assert s.output + [] == s.output;
    } else {
      var x := Rename(options[0], s.pending);
      var rest := Retarget(options[1..], Asks(options[0], s.pending));
      TurnsRetarget(Turn(s, options[0], locked), options[1..], locked);
      OneMore(s.output, x, rest);
    }
  }

  lemma OneMore(output: seq<string>, x: string, rest: seq<string>)
    ensures output + [x] + rest == output + ([x] + rest)
    ensures LOCKED in [x] + rest <==> x == LOCKED || LOCKED in rest
  {
  }

  /** At the separator --locked goes in if it is still missing; the rest is copied. */
  lemma TurnsPassOn(s: State, rest: seq<string>, locked: bool)
    requires s.cargoOptions && !s.pending && rest != [] && rest[0] == SEPARATOR
    ensures Turns(s, rest, locked).output == (if locked && !s.hasLocked then s.output + [LOCKED] else s.output) + rest
    ensures locked ==> Turns(s, rest, locked).hasLocked
  {
    var t := Turn(s, rest[0], locked);
    AfterSeparator(t, rest[1..], locked);
    assert rest == [rest[0]] + rest[1..];
    if locked && !s.hasLocked {
      assert t.output + rest[1..] == s.output + [LOCKED] + rest;
    } else {
      assert t.output + rest[1..] == s.output + rest;
    }
  }

  lemma OptionsOnly(options: seq<string>, locked: bool)
    requires EndOfOptions(options, false) == |options|
    ensures Rewrite(options, locked) == LockedOptions(options, locked)
    ensures Turns(Begin, options, locked).output == Retarget(options, false)
  {
    TurnsRetarget(Begin, options, locked);
    assert Begin.output + Retarget(options, false) == Retarget(options, false);
    hide Turns, Retarget, EndOfOptions;
  }

  lemma OptionsAndRest(options: seq<string>, rest: seq<string>, locked: bool)
    requires EndOfOptions(options, false) == |options| && !Dangling(options, false)
    requires rest != [] && rest[0] == SEPARATOR
    ensures Rewrite(options + rest, locked) == LockedOptions(options, locked) + rest
  {
    OptionsOnly(options, locked);
    TurnsRetarget(Begin, options, locked);
    TurnsConcatenate(Begin, options, rest, locked);
    hide Turns, Retarget, EndOfOptions, Dangling;
    var s := Turns(Begin, options, locked);
    TurnsPassOn(s, rest, locked);
  }

  /** The loop rewrites the options before the separator and leaves the rest alone. */
  lemma RewriteIsLocal(arguments: seq<string>, locked: bool)
    ensures var n := EndOfOptions(arguments, false);
      Rewrite(arguments, locked) == LockedOptions(arguments[..n], locked) + arguments[n..]
  {
    var n := EndOfOptions(arguments, false);
    EndOfPrefix(arguments, false);
    SeparatorEnds(arguments, false);
    hide Rewrite, LockedOptions, EndOfOptions, Dangling;
    if n == |arguments| {
      assert arguments[..n] == arguments && arguments[n..] == [];
      OptionsOnly(arguments, locked);
    } else {
      assert arguments == arguments[..n] + arguments[n..];
      OptionsAndRest(arguments[..n], arguments[n..], locked);
    }
  }

  // ---------------------------------------------------------------- the separator stays where it is

  lemma {:induction false} EndOfPrefix(arguments: seq<string>, pending: bool)
    ensures var n := EndOfOptions(arguments, pending); EndOfOptions(arguments[..n], pending) == n
    decreases |arguments|
  {
    var n := EndOfOptions(arguments, pending);
    if n > 0 {
      EndOfPrefix(arguments[1..], Asks(arguments[0], pending));
      assert arguments[..n][1..] == arguments[1..][..n - 1];
    }
  }

  /** Renaming targets does not move the end of the options, and renaming twice is renaming
      once. */
  lemma {:induction false} RetargetAgain(options: seq<string>, pending: bool)
    requires EndOfOptions(options, pending) == |options|
    ensures EndOfOptions(Retarget(options, pending), pending) == |options|
    ensures Retarget(Retarget(options, pending), pending) == Retarget(options, pending)
    decreases |options|
  {
    if options != [] {
      RetargetAgain(options[1..], Asks(options[0], pending));
      assert Retarget(options, pending)[1..] == Retarget(options[1..], Asks(options[0], pending));
    }
  }

  lemma {:induction false} EndAppends(options: seq<string>, tail: seq<string>, pending: bool)
    requires EndOfOptions(options, pending) == |options|
    ensures EndOfOptions(options + tail, pending) == |options| + EndOfOptions(tail, Dangling(options, pending))
    decreases |options|
  {
    if options == [] {
      assert options + tail == tail;
    } else {
      assert (options + tail)[1..] == options[1..] + tail;
      EndAppends(options[1..], tail, Asks(options[0], pending));
    }
  }

  lemma {:induction false} RetargetAppends(options: seq<string>, tail: seq<string>, pending: bool)
    ensures Retarget(options + tail, pending) == Retarget(options, pending) + Retarget(tail, Dangling(options, pending))
    decreases |options|
  {
    if options == [] {
      assert options + tail == tail;
      assert [] + Retarget(tail, pending) == Retarget(tail, pending);
    } else {
      var next := Asks(options[0], pending);
      assert (options + tail)[1..] == options[1..] + tail;
      RetargetAppends(options[1..], tail, next);
      assert [Rename(options[0], pending)]
          + (Retarget(options[1..], next) + Retarget(tail, Dangling(options[1..], next)))
          == [Rename(options[0], pending)] + Retarget(options[1..], next)
              + Retarget(tail, Dangling(options[1..], next));
    }
  }

  lemma {:induction false} DanglingRetargeted(options: seq<string>, pending: bool)
    ensures Dangling(Retarget(options, pending), pending) == Dangling(options, pending)
    decreases |options|
  {
    if options != [] {
      DanglingRetargeted(options[1..], Asks(options[0], pending));
      assert Retarget(options, pending)[1..] == Retarget(options[1..], Asks(options[0], pending));
    }
  }

  lemma {:induction false} SeparatorEnds(arguments: seq<string>, pending: bool)
    ensures var n := EndOfOptions(arguments, pending);
      n < |arguments| ==> arguments[n] == SEPARATOR && !Dangling(arguments[..n], pending)
    decreases |arguments|
  {
    var n := EndOfOptions(arguments, pending);
    if n > 0 {
      SeparatorEnds(arguments[1..], Asks(arguments[0], pending));
      assert arguments[..n][1..] == arguments[1..][..n - 1];
    }
  }

  /** The rewritten options end where they ended. */
  lemma LockedOptionsEnd(arguments: seq<string>, locked: bool)
    ensures var n := EndOfOptions(arguments, false);
      var options := LockedOptions(arguments[..n], locked);
      EndOfOptions(options + arguments[n..], false) == |options|
      && EndOfOptions(options, false) == |options| && Retarget(options, false) == options
  {
    var n := EndOfOptions(arguments, false);
    var r := Retarget(arguments[..n], false);
    var options := LockedOptions(arguments[..n], locked);
    EndOfPrefix(arguments, false);
    RetargetAgain(arguments[..n], false);
    DanglingRetargeted(arguments[..n], false);
    SeparatorEnds(arguments, false);
    if options != r {
      EndAppends(r, [LOCKED], false);
      RetargetAppends(r, [LOCKED], false);
      LockedIsPlain(Dangling(r, false));
      DanglingLocked(r, false);
    }
    EndAppends(options, arguments[n..], false);
  }

  lemma LockedIsPlain(pending: bool)
    ensures EndOfOptions([LOCKED], pending) == 1 && Retarget([LOCKED], pending) == [LOCKED]
  {
    assert [LOCKED][1..] == [];
  }

  lemma {:induction false} DanglingLocked(options: seq<string>, pending: bool)
    ensures !Dangling(options + [LOCKED], pending)
    decreases |options|
  {
    if options == [] {
      assert ([] + [LOCKED])[1..] == [];
    } else {
      assert (options + [LOCKED])[1..] == options[1..] + [LOCKED];
      DanglingLocked(options[1..], Asks(options[0], pending));
    }
  }

  // ---------------------------------------------------------------- main results

  /** What follows the separator is passed on unchanged, and for build and metadata --locked
      stands before it. */
  lemma LockedBeforeSeparator(arguments: seq<string>, locked: bool)
    ensures var n, m := EndOfOptions(arguments, false), EndOfOptions(Rewrite(arguments, locked), false);
      Rewrite(arguments, locked)[m..] == arguments[n..] && (locked ==> LOCKED in Rewrite(arguments, locked)[..m])
  {
    var n := EndOfOptions(arguments, false);
    RewriteIsLocal(arguments, locked);
    LockedOptionsEnd(arguments, locked);
    var options := LockedOptions(arguments[..n], locked);
    assert (options + arguments[n..])[..|options|] == options
        && (options + arguments[n..])[|options|..] == arguments[n..];
    if locked && LOCKED !in Retarget(arguments[..n], false) { assert options[|options| - 1] == LOCKED; }
  }

  /** Rewriting twice is rewriting once. */
  lemma RewriteIsIdempotent(arguments: seq<string>, locked: bool)
    ensures Rewrite(Rewrite(arguments, locked), locked) == Rewrite(arguments, locked)
  {
    var n := EndOfOptions(arguments, false);
    var options := LockedOptions(arguments[..n], locked);
    var once := options + arguments[n..];
    RewriteIsLocal(arguments, locked);
    LockedOptionsEnd(arguments, locked);
    LockedBeforeSeparator(arguments, locked);
    RewriteIsLocal(once, locked);
    assert once[..|options|] == options && once[|options|..] == arguments[n..];
  }

  // ---------------------------------------------------------------- every argument by its place

  /** How many --target stand directly before an argument. */
  function TargetsBefore(arguments: seq<string>, i: nat): nat
    requires i <= |arguments|
  {
    if i > 0 && arguments[i - 1] == TARGET then 1 + TargetsBefore(arguments, i - 1) else 0
  }

  /** The argument is the value of a --target, which may itself read --target. */
  predicate IsValue(arguments: seq<string>, i: nat)
    requires i <= |arguments|
  {
    TargetsBefore(arguments, i) % 2 == 1
  }

  predicate Ends(arguments: seq<string>, i: nat)
    requires i < |arguments|
  {
    arguments[i] == SEPARATOR && !IsValue(arguments, i)
  }

  /** Whether the loop waits for a target when it comes to an argument. */
  predicate PendingAt(arguments: seq<string>, i: nat, pending: bool)
    requires i <= |arguments|
  {
    if i == 0 then pending else Asks(arguments[i - 1], PendingAt(arguments, i - 1, pending))
  }

  lemma {:induction false} PendingMeansValue(arguments: seq<string>, i: nat)
    requires i <= |arguments|
    ensures PendingAt(arguments, i, false) <==> IsValue(arguments, i)
    decreases i
  {
    if i > 0 { PendingMeansValue(arguments, i - 1); }
  }

  lemma {:induction false} PendingShifts(arguments: seq<string>, i: nat, pending: bool)
    requires 0 < i <= |arguments|
    ensures PendingAt(arguments, i, pending) == PendingAt(arguments[1..], i - 1, Asks(arguments[0], pending))
    decreases i
  {
    if i > 1 { PendingShifts(arguments, i - 1, pending); }
  }

  lemma {:induction false} RetargetAt(options: seq<string>, i: nat, pending: bool)
    requires i < |options|
    ensures Retarget(options, pending)[i] == Rename(options[i], PendingAt(options, i, pending))
    decreases i
  {
    if i > 0 {
      RetargetAt(options[1..], i - 1, Asks(options[0], pending));
      PendingShifts(options, i, pending);
    }
  }

  lemma {:induction false} EndAt(arguments: seq<string>, i: nat, pending: bool)
    requires i < |arguments|
    ensures var n := EndOfOptions(arguments, pending);
            && (i == n ==> arguments[i] == SEPARATOR && !PendingAt(arguments, i, pending))
            && (i < n ==> !(arguments[i] == SEPARATOR && !PendingAt(arguments, i, pending)))
    decreases i
  {
    if i > 0 {
      EndAt(arguments[1..], i - 1, Asks(arguments[0], pending));
      PendingShifts(arguments, i, pending);
    }
  }

  lemma {:induction false} SameBefore(arguments: seq<string>, n: nat, i: nat)
    requires i <= n <= |arguments|
    ensures TargetsBefore(arguments[..n], i) == TargetsBefore(arguments, i)
    decreases i
  {
    if i > 0 { SameBefore(arguments, n, i - 1); }
  }

  /** The argument as it is passed on. */
  function PassedOn(arguments: seq<string>, i: nat): string
    requires i < |arguments|
  {
    if arguments[i] == "aarch64-unknown-android" && IsValue(arguments, i) then "aarch64-linux-android" else arguments[i]
  }

  lemma RetargetedAt(arguments: seq<string>, n: nat, i: nat)
    requires i < n <= |arguments|
    ensures Retarget(arguments[..n], false)[i] == PassedOn(arguments, i)
  {
    RetargetAt(arguments[..n], i, false);
    PendingMeansValue(arguments[..n], i);
    SameBefore(arguments, n, i);
  }

  lemma LockedSurvives(arguments: seq<string>, n: nat)
    requires n <= |arguments|
    ensures LOCKED in Retarget(arguments[..n], false) <==> LOCKED in arguments[..n]
  {
    var r := Retarget(arguments[..n], false);
    forall i | 0 <= i < n ensures r[i] == LOCKED <==> arguments[..n][i] == LOCKED {
      RetargetedAt(arguments, n, i);
    }
    hide Retarget, PassedOn;
  }

  /** The rewritten arguments, one by one: those before the first separator that is no target are
      passed on with the old Android target renamed where it is a target; if --locked is required
      and is not among them it comes next; and the rest follows unchanged. */
  lemma RewritesExactly(arguments: seq<string>, locked: bool)
    ensures var n, out := EndOfOptions(arguments, false), Rewrite(arguments, locked);
            var added := locked && "--locked" !in arguments[..n];
            && (n < |arguments| ==> Ends(arguments, n)) && (forall i :: 0 <= i < n ==> !Ends(arguments, i))
            && |out| == |arguments| + (if added then 1 else 0)
            && (forall i :: 0 <= i < n ==> out[i] == PassedOn(arguments, i))
            && (added ==> out[n] == "--locked")
            && out[|out| - (|arguments| - n)..] == arguments[n..]
  {
    var n := EndOfOptions(arguments, false);
    forall i | 0 <= i <= n && i < |arguments| ensures Ends(arguments, i) <==> i == n {
      EndAt(arguments, i, false);
      PendingMeansValue(arguments, i);
    }
    RewriteIsLocal(arguments, locked);
    LockedSurvives(arguments, n);
    forall i | 0 <= i < n ensures Retarget(arguments[..n], false)[i] == PassedOn(arguments, i) {
      RetargetedAt(arguments, n, i);
    }
    hide Retarget, PassedOn, Ends, Rewrite, EndOfOptions;
  }

  // ---------------------------------------------------------------- the file of lines

  /** printf '%s\\n' of each argument. */
  function Encode(arguments: seq<string>): string {
    if arguments == [] then "" else arguments[0] + "\n" + Encode(arguments[1..])
  }

  /** The read loop: whole lines, and a last one without its newline unless it is empty. */
  function Lines(text: string): seq<string>
    decreases |text|
  {
    if text == "" then []
    else
      var i := FindNewline(text);
      if i == |text| then [text] else [text[..i]] + Lines(text[i + 1..])
  }

  /** The first line ends at the first newline. */
  lemma FirstLineEnds(text: string, n: nat)
    requires n < |text| && text[n] == '\n' && '\n' !in text[..n]
    ensures FindNewline(text) == n
    ensures Lines(text) == [text[..n]] + Lines(text[n + 1..])
  {
    assert forall k :: 0 <= k < n ==> text[k] == text[..n][k];
  }

  lemma {:induction false} CleanLinesReturn(arguments: seq<string>)
    requires forall i :: 0 <= i < |arguments| ==> '\n' !in arguments[i]
    ensures Lines(Encode(arguments)) == arguments
    decreases |arguments|
  {
    if arguments != [] {
      var first, rest := arguments[0], Encode(arguments[1..]);
      var text := first + "\n" + rest;
      assert text[..|first|] == first && text[|first| + 1..] == rest;
      FirstLineEnds(text, |first|);
      CleanLinesReturn(arguments[1..]);
      hide Lines;
    }
  }

  lemma {:induction false} LinesAreClean(text: string, i: nat)
    requires i < |Lines(text)|
    ensures '\n' !in Lines(text)[i]
    decreases |text|
  {
    var n := FindNewline(text);
    if n < |text| && i > 0 { LinesAreClean(text[n + 1..], i - 1); }
  }

  /** The arguments reach cargo unchanged exactly when none of them contains a newline. */
  lemma FileKeepsArguments(arguments: seq<string>)
    ensures Lines(Encode(arguments)) == arguments <==> (forall i :: 0 <= i < |arguments| ==> '\n' !in arguments[i])
  {
    if forall i :: 0 <= i < |arguments| ==> '\n' !in arguments[i] { CleanLinesReturn(arguments); }
    if Lines(Encode(arguments)) == arguments {
      forall i | 0 <= i < |arguments| ensures '\n' !in arguments[i] {
        LinesAreClean(Encode(arguments), i);
      }
    }
  }

  // ---------------------------------------------------------------- the source's loop

  method RewriteArguments(arguments: seq<string>, locked: bool) returns (output: seq<string>)
    ensures output == Rewrite(arguments, locked)
  {
    var pending, hasLocked, cargoOptions := false, false, true;
    output := [];
    for i := 0 to |arguments|
      invariant Turns(Begin, arguments, locked)
                == Turns(State(pending, hasLocked, cargoOptions, output), arguments[i..], locked)
    {
      var argument := arguments[i];
      assert arguments[i..][1..] == arguments[i + 1..];
      ghost var before := State(pending, hasLocked, cargoOptions, output);
      if cargoOptions {
        if argument == SEPARATOR && !pending {
          if locked && !hasLocked {
            output := output + [LOCKED];
            hasLocked := true;
          }
          cargoOptions := false;
        } else if pending {
          if argument == OLD_TARGET { argument := NEW_TARGET; }
          pending := false;
        } else if argument == TARGET {
          pending := true;
        }
        if argument == LOCKED { hasLocked := true; }
      }
      output := output + [argument];
      assert before.output + [LOCKED, argument] == before.output + [LOCKED] + [argument];
      assert State(pending, hasLocked, cargoOptions, output) == Turn(before, arguments[i], locked);
    }
    if locked && !hasLocked { output := output + [LOCKED]; }
  }

  predicate Clean(arguments: seq<string>) {
    forall i :: 0 <= i < |arguments| ==> '\n' !in arguments[i]
  }

  /** The wrapper up to exec: what the real cargo is called with. It is the rewritten command line
      exactly when neither the subcommand nor an argument contains a newline; otherwise it is
      what the read loop makes of the lines. */
  method Wrap(subcommand: string, arguments: seq<string>) returns (forwarded: seq<string>)
    ensures var rewritten := Rewrite(arguments, subcommand == "build" || subcommand == "metadata");
            && forwarded == Lines(Encode([subcommand] + rewritten))
            && (forwarded == [subcommand] + rewritten <==> '\n' !in subcommand && Clean(arguments))
  {
    var rewritten := RewriteArguments(arguments, RequiresLocked(subcommand));
    RewriteIsClean(arguments, RequiresLocked(subcommand));
    forwarded := Lines(Encode([subcommand] + rewritten));
    FileKeepsArguments([subcommand] + rewritten);
    assert Clean([subcommand] + rewritten) <==>
        '\n' !in subcommand && Clean(rewritten) by { CleanConcat([subcommand], rewritten); }
  }

  lemma CleanConcat(a: seq<string>, b: seq<string>)
    ensures Clean(a + b) <==> Clean(a) && Clean(b)
  {
    forall i | 0 <= i < |a| ensures a[i] == (a + b)[i] {}
    forall i | 0 <= i < |b| ensures b[i] == (a + b)[|a| + i] {}
  }

  lemma {:induction false} RetargetIsClean(options: seq<string>, pending: bool)
    ensures Clean(Retarget(options, pending)) <==> Clean(options)
    decreases |options|
  {
    if options != [] {
      RetargetIsClean(options[1..], Asks(options[0], pending));
      assert options == [options[0]] + options[1..];
      CleanConcat([options[0]], options[1..]);
      CleanConcat([Retarget(options, pending)[0]], Retarget(options[1..], Asks(options[0], pending)));
    }
  }

  /** Rewriting neither adds a newline nor takes one away. */
  lemma RewriteIsClean(arguments: seq<string>, locked: bool)
    ensures Clean(Rewrite(arguments, locked)) <==> Clean(arguments)
  {
    var n := EndOfOptions(arguments, false);
    RewriteIsLocal(arguments, locked);
    RetargetIsClean(arguments[..n], false);
    CleanConcat(Retarget(arguments[..n], false), [LOCKED]);
    CleanConcat(LockedOptions(arguments[..n], locked), arguments[n..]);
    CleanConcat(arguments[..n], arguments[n..]);
    assert arguments == arguments[..n] + arguments[n..];
  }
}
