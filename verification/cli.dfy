/** The command line front end of cargo-toolchain: the left-to-right scan of
    the arguments, the call into the resolver, and the exit code.

    What is written to standard error (the help text, the error messages) is
    not modelled; the report records the outcome, whether the resolver ran and
    with what result, the line written to standard output, and the exit code. */
module Cli {
  import opened Wrappers
  import opened Toolchain

  /** How the argument scan ended. */
  datatype Outcome =
    | Help                      // `-h` or `--help` was reached: print usage, exit 0
    | Unrecognized(arg: string) // the first argument that is not understood
    | Run(directory: bool)      // every argument understood; resolve in this mode

  predicate IsDirectoryFlag(arg: string) {
    arg == "-d" || arg == "--directory"
  }

  predicate IsHelpFlag(arg: string) {
    arg == "-h" || arg == "--help"
  }

  /** An argument after which the scan goes on: a directory flag, or the
      `toolchain` word cargo passes when it runs the binary as a subcommand. */
  predicate IsAccepted(arg: string) {
    IsDirectoryFlag(arg) || arg == "toolchain"
  }

  predicate AllAccepted(args: seq<string>) {
    forall j :: 0 <= j < |args| ==> IsAccepted(args[j])
  }

  /** Position `i` holds the first argument after which the scan does not go on. */
  predicate StopsAt(args: seq<string>, i: int) {
    0 <= i < |args| && !IsAccepted(args[i]) &&
    forall j :: 0 <= j < i ==> IsAccepted(args[j])
  }

  predicate HasDirectoryFlag(args: seq<string>) {
    exists j :: 0 <= j < |args| && IsDirectoryFlag(args[j])
  }

  /** The scan of `main`, continuing from a state where the directory flag
      has been seen iff `directory`. */
  function ParseFrom(args: seq<string>, directory: bool): (r: Outcome)
    ensures r.Unrecognized? ==> r.arg in args && !IsAccepted(r.arg) && !IsHelpFlag(r.arg)
    ensures r.Run? ==> AllAccepted(args)
    ensures r.Run? ==> r.directory == (directory || HasDirectoryFlag(args))
    decreases |args|
  {
    if |args| == 0 then Run(directory)
    else
      var arg := args[0];
      if IsDirectoryFlag(arg) then
        var r := ParseFrom(args[1..], true);
        assert r.Unrecognized? ==> r.arg in args by {
          if r.Unrecognized? { assert r.arg in args[1..]; }
        }
        assert r.Run? ==> HasDirectoryFlag(args) by {
          assert IsDirectoryFlag(args[0]);
        }
        r
      else if IsHelpFlag(arg) then Help
      else if arg == "toolchain" then
        var r := ParseFrom(args[1..], directory);
        assert r.Unrecognized? ==> r.arg in args by {
          if r.Unrecognized? { assert r.arg in args[1..]; }
        }
        assert HasDirectoryFlag(args) <==> HasDirectoryFlag(args[1..]) by {
          if HasDirectoryFlag(args) {
            var j :| 0 <= j < |args| && IsDirectoryFlag(args[j]);
            assert j != 0;
            assert args[1..][j - 1] == args[j];
          }
          if HasDirectoryFlag(args[1..]) {
            var j :| 0 <= j < |args[1..]| && IsDirectoryFlag(args[1..][j]);
            assert args[j + 1] == args[1..][j];
          }
        }
        assert r.Run? ==> AllAccepted(args) by {
          if r.Run? {
            forall j | 0 <= j < |args| ensures IsAccepted(args[j]) {
              if j > 0 { assert args[j] == args[1..][j - 1]; }
            }
          }
        }
        r
      else Unrecognized(arg)
  }

  /** The argument scan of `main`, from the state where no flag has been seen. */
  function Parse(args: seq<string>): (r: Outcome)
    ensures r.Unrecognized? ==> r.arg in args && !IsAccepted(r.arg) && !IsHelpFlag(r.arg)
    ensures r.Run? ==> AllAccepted(args) && r.directory == HasDirectoryFlag(args)
  {
    ParseFrom(args, false)
  }

  /** The reference meaning of the scan: the argument at the first stop
      position decides between help and an error, and with no stop the
      outcome is a run, in directory mode iff a directory flag occurs. */
  lemma {:induction false} ParseFromReference(args: seq<string>, directory: bool)
    ensures forall i :: StopsAt(args, i) ==>
              ParseFrom(args, directory) == (if IsHelpFlag(args[i]) then Help else Unrecognized(args[i]))
    ensures AllAccepted(args) ==> ParseFrom(args, directory) == Run(directory || HasDirectoryFlag(args))
    ensures AllAccepted(args) || exists i :: StopsAt(args, i)
    decreases |args|
  {
    if |args| == 0 {
    } else if IsAccepted(args[0]) {
      var rest := args[1..];
      var d := directory || IsDirectoryFlag(args[0]);
      ParseFromReference(rest, d);
      assert ParseFrom(args, directory) == ParseFrom(rest, d);
      forall i | StopsAt(args, i)
        ensures ParseFrom(args, directory) == (if IsHelpFlag(args[i]) then Help else Unrecognized(args[i]))
      {
        assert i != 0;
        assert rest[i - 1] == args[i];
        assert StopsAt(rest, i - 1) by {
          forall j | 0 <= j < i - 1 ensures IsAccepted(rest[j]) {
            assert rest[j] == args[j + 1];
          }
        }
      }
      if AllAccepted(args) {
        assert AllAccepted(rest) by {
          forall j | 0 <= j < |rest| ensures IsAccepted(rest[j]) {
            assert rest[j] == args[j + 1];
          }
        }
        assert HasDirectoryFlag(args) <==> IsDirectoryFlag(args[0]) || HasDirectoryFlag(rest) by {
          if HasDirectoryFlag(args) {
            var j :| 0 <= j < |args| && IsDirectoryFlag(args[j]);
            if j > 0 { assert rest[j - 1] == args[j]; }
          }
          if HasDirectoryFlag(rest) {
            var j :| 0 <= j < |rest| && IsDirectoryFlag(rest[j]);
            assert args[j + 1] == rest[j];
          }
        }
      }
      if !AllAccepted(rest) {
        var k :| StopsAt(rest, k);
        assert StopsAt(args, k + 1) by {
          assert args[k + 1] == rest[k];
          forall j | 0 <= j < k + 1 ensures IsAccepted(args[j]) {
            if j > 0 { assert args[j] == rest[j - 1]; }
          }
        }
      } else {
        forall j | 0 <= j < |args| ensures IsAccepted(args[j]) {
          if j > 0 { assert args[j] == rest[j - 1]; }
        }
      }
    } else {
      assert StopsAt(args, 0);
    }
  }

  /** The scan ends in help exactly when a help flag is the first argument
      that is not a directory flag or `toolchain`. */
  lemma ParseHelpIff(args: seq<string>)
    ensures Parse(args) == Help <==> exists i :: StopsAt(args, i) && IsHelpFlag(args[i])
  {
    ParseFromReference(args, false);
  }

  /** The scan ends in an error naming `arg` exactly when `arg` is the first
      argument that is not a directory flag or `toolchain`, and is not a help flag. */
  lemma ParseUnrecognizedIff(args: seq<string>, arg: string)
    ensures Parse(args) == Unrecognized(arg) <==>
              exists i :: StopsAt(args, i) && !IsHelpFlag(args[i]) && args[i] == arg
  {
    ParseFromReference(args, false);
  }

  /** The scan ends in a run exactly when every argument is a directory flag
      or `toolchain`; the run is in directory mode iff a directory flag occurs,
      however often. */
  lemma ParseRunIff(args: seq<string>, directory: bool)
    ensures Parse(args) == Run(directory) <==> AllAccepted(args) && directory == HasDirectoryFlag(args)
  {
    ParseFromReference(args, false);
  }

  /** The arguments with every `toolchain` word removed. */
  function WithoutToolchainWord(args: seq<string>): (r: seq<string>)
    ensures |r| <= |args|
    ensures forall j :: 0 <= j < |r| ==> r[j] != "toolchain" && r[j] in args
    decreases |args|
  {
    if |args| == 0 then []
    else if args[0] == "toolchain" then WithoutToolchainWord(args[1..])
    else [args[0]] + WithoutToolchainWord(args[1..])
  }

  /** Removing the `toolchain` word drops every occurrence of it and keeps
      every other argument as often as it occurs. */
  lemma {:induction false} WithoutToolchainWordCounts(args: seq<string>)
    ensures multiset(WithoutToolchainWord(args))["toolchain"] == 0
    ensures forall x :: x != "toolchain" ==>
              multiset(WithoutToolchainWord(args))[x] == multiset(args)[x]
    decreases |args|
  {
    if |args| > 0 {
      WithoutToolchainWordCounts(args[1..]);
      assert args == [args[0]] + args[1..];
      assert multiset(args) == multiset([args[0]]) + multiset(args[1..]);
      if args[0] != "toolchain" {
        var rest := WithoutToolchainWord(args[1..]);
        assert multiset([args[0]] + rest) == multiset([args[0]]) + multiset(rest);
      }
    }
  }

  /** Removing the `toolchain` word works piecewise on a concatenation, so
      the other arguments keep their order. */
  lemma {:induction false} WithoutToolchainWordAppend(a: seq<string>, b: seq<string>)
    ensures WithoutToolchainWord(a + b) == WithoutToolchainWord(a) + WithoutToolchainWord(b)
    decreases |a|
  {
    if |a| == 0 {
      assert a + b == b;
    } else {
      var ab := a + b;
      assert ab[0] == a[0];
      assert ab[1..] == a[1..] + b;
      WithoutToolchainWordAppend(a[1..], b);
      var head := if a[0] == "toolchain" then [] else [a[0]];
      assert WithoutToolchainWord(ab) == head + WithoutToolchainWord(a[1..] + b);
      assert WithoutToolchainWord(a) == head + WithoutToolchainWord(a[1..]);
    }
  }

  /** Any single word other than `toolchain` is kept. */
  lemma WithoutToolchainWordKeeps(x: string)
    requires x != "toolchain"
    ensures WithoutToolchainWord([x]) == [x]
  {
  }

  /** `toolchain` is skipped wherever it stands: removing every occurrence
      does not change the outcome. */
  lemma {:induction false} ToolchainWordIgnored(args: seq<string>, directory: bool)
    ensures ParseFrom(WithoutToolchainWord(args), directory) == ParseFrom(args, directory)
    decreases |args|
  {
    if |args| == 0 {
    } else if args[0] == "toolchain" {
      ToolchainWordIgnored(args[1..], directory);
    } else {
      var rest := WithoutToolchainWord(args[1..]);
      assert WithoutToolchainWord(args) == [args[0]] + rest;
      assert ([args[0]] + rest)[1..] == rest;
      ToolchainWordIgnored(args[1..], true);
      ToolchainWordIgnored(args[1..], directory);
    }
  }

  /** The process arguments with the program name dropped, as
      `env::args().skip(1)`. */
  function CommandLineArgs(argv: seq<string>): (r: seq<string>)
    ensures |argv| > 0 ==> [argv[0]] + r == argv
    ensures |argv| == 0 ==> r == []
  {
    if |argv| == 0 then [] else argv[1..]
  }

  /** The exit code of `main`: 0 after help or a successful resolution,
      1 after an unrecognized argument or a failed resolution. The resolution
      result is present exactly when the resolver was called. */
  function ExitCode(outcome: Outcome, resolution: Option<Result<string, Error>>): (code: int)
    requires outcome.Run? <==> resolution.Some?
    ensures code == 0 || code == 1
    ensures code == 0 <==> outcome.Help? || (outcome.Run? && resolution.value.Ok?)
  {
    match outcome
    case Help => 0
    case Unrecognized(_) => 1
    case Run(_) => if resolution.value.Ok? then 0 else 1
  }

  /** What one run of the program amounts to. */
  datatype Report = Report(
    outcome: Outcome,
    resolution: Option<Result<string, Error>>, // None when the resolver was not called
    stdout: Option<string>,                    // the line printed on standard output
    exitCode: int)

  /** One run of the program with process arguments `argv`, the value of
      `RUSTUP_TOOLCHAIN`, the result of running rustup, and the UTF-8 decoder.
      The arguments (the program name included) are Unicode, and standard
      output and standard error are writable, so no panic of the program
      (exit code 101) arises here. */
  function Execute(argv: seq<string>, env: Option<string>, output: CommandResult, decode: Decoder): (r: Report)
    ensures r.outcome == Parse(CommandLineArgs(argv))
    ensures r.resolution.Some? <==> r.outcome.Run?
    ensures r.outcome.Run? ==> r.resolution == Some(GetToolchain(r.outcome.directory, env, output, decode))
    ensures r.exitCode == 0 || r.exitCode == 1
    ensures r.exitCode == 0 <==> r.outcome.Help? || (r.outcome.Run? && r.resolution.value.Ok?)
    ensures r.stdout.Some? <==> r.outcome.Run? && r.exitCode == 0
    ensures r.stdout.Some? ==> r.resolution == Some(Ok(r.stdout.value))
  {
    var outcome := Parse(CommandLineArgs(argv));
    var resolution :=
      if outcome.Run? then Some(GetToolchain(outcome.directory, env, output, decode)) else None;
    var stdout :=
      if resolution.Some? && resolution.value.Ok? then Some(resolution.value.value) else None;
    Report(outcome, resolution, stdout, ExitCode(outcome, resolution))
  }

  /** Help and argument errors never reach the resolver: the report does not
      depend on the environment, the subprocess or the decoder. */
  lemma NoResolutionWithoutRun(argv: seq<string>, e1: Option<string>, o1: CommandResult, d1: Decoder,
                               e2: Option<string>, o2: CommandResult, d2: Decoder)
    requires !Parse(CommandLineArgs(argv)).Run?
    ensures Execute(argv, e1, o1, d1).resolution == None
    ensures Execute(argv, e1, o1, d1) == Execute(argv, e2, o2, d2)
  {
  }

  /** A help flag ahead of an unknown argument wins, and the other way round. */
  lemma HelpOrderExamples()
    ensures Parse(["-h", "--bogus"]) == Help
    ensures Parse(["--bogus", "-h"]) == Unrecognized("--bogus")
  {
  }

  /** `cargo toolchain -d` behaves as `cargo-toolchain -d`. */
  lemma SubcommandExample(program: string, env: Option<string>, output: CommandResult, decode: Decoder)
    ensures Execute([program, "toolchain", "-d"], env, output, decode) ==
            Execute([program, "-d"], env, output, decode)
  {
  }

  /** `-h` exits 0 with nothing on standard output; an unknown flag exits 1. */
  lemma ExitCodeExamples(program: string, env: Option<string>, output: CommandResult, decode: Decoder)
    ensures Execute([program, "-h"], env, output, decode).exitCode == 0
    ensures Execute([program, "-h"], env, output, decode).stdout == None
    ensures Execute([program, "--bogus"], env, output, decode).exitCode == 1
  {
  }
}
