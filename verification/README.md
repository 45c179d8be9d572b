# cargo-toolchain, modelled in Dafny

cargo-toolchain prints the rustup toolchain in effect: the one named by the
`RUSTUP_TOOLCHAIN` override that rustup sets for a `cargo +channel …` call, or
otherwise (and always with `-d`/`--directory`) the directory default reported
by `rustup show active-toolchain`. A name that starts with one of the default
channels `stable`, `beta`, `nightly` is cut down to that channel.

The model has three modules:

- `Wrappers` (wrappers.dfy): `Option` and `Result`, with Rust's constructor names.
- `Toolchain` (toolchain.dfy, for src/lib.rs): `Truncate` (`truncate_toolchain`),
  `DirectoryToolchain`, `ActiveToolchain`, `GetToolchain`. The environment
  variable is an `Option<string>` (None when it is absent or not valid
  Unicode, the two cases `env::var` reports as an error). The subprocess is a
  `CommandResult` value (`OutputFailed` when `Command::output` returns an I/O
  error, or `Output(status, stdout)`), and UTF-8
  decoding is a `Decoder` parameter, a partial function from bytes to text.
- `Cli` (cli.dfy, for src/main.rs): `Parse` is the left-to-right argument
  scan of `main`, `ExitCode` is the exit code it leads to, and `Execute`
  combines them with the resolver into a `Report`. The report holds the
  outcome, the resolver's result (absent when the resolver was not called),
  the line printed on standard output and the exit code.

Behaviours of the code worth knowing, each kept in the model:

- rustup's exit status is never checked. Only an I/O error from
  `Command::output` (src/lib.rs:54) and invalid UTF-8 (src/lib.rs:55) are
  errors; a non-zero exit with decodable output is a success
  (`DirectoryIgnoresStatus`).
- Nothing is trimmed from rustup's output. A custom toolchain name is
  returned with rustup's trailing newline
  (`DirectoryKeepsCustomNameVerbatim`). Default channels are unaffected,
  because prefix matching ignores whatever follows.
- Prefix matching needs no `-` separator, so `betamax` becomes `beta`
  (`TruncateNoSeparatorExample`).

## Model

| member | source | states |
|---|---|---|
| Toolchain.TruncateFrom | src/lib.rs:74-82 | The scan returns a prefix of the input that is either the input or one of the profiles. If some profile matches, the result is the first matching profile in list order and no earlier profile matches. If none matches, the input comes back unchanged. |
| Toolchain.Truncate | src/lib.rs:74-82 | The normalised name is a prefix of the input, so it is never longer. It is a default channel or the unchanged input. A name that starts with no default channel is returned unchanged. |
| Toolchain.TruncateFromUnique | src/lib.rs:75-79 | When no listed profile is a prefix of another, any profile that matches the name is the result, wherever it sits in the list. |
| Toolchain.ScanOrderIrrelevant | src/lib.rs:75-79 | Two prefix-free lists with the same elements give the same result: the scan order does not matter. |
| Toolchain.DefaultProfilesPrefixFree | src/lib.rs:25 | None of `stable`, `beta`, `nightly` is a prefix of another, so at most one can match a name. |
| Toolchain.TruncateReference | src/lib.rs:74-82 | Reference meaning: a name that starts with a default channel normalises to that channel. A name that starts with none is unchanged. |
| Toolchain.DefaultOrderIrrelevant | src/lib.rs:75-79 | Scanning the three channels in any order gives the same result as the fixed order stable, beta, nightly. |
| Toolchain.TruncateIdempotent | src/lib.rs:74-82 | Normalising an already normalised name changes nothing. |
| Toolchain.TruncateNightlyExample | src/lib.rs:65-67 | `nightly-x86_64-unknown-linux-gnu` normalises to `nightly`. |
| Toolchain.TruncateCustomExample | src/lib.rs:69-71 | `my-custom-toolchain` is kept unchanged. |
| Toolchain.TruncateNoSeparatorExample | src/lib.rs:76-77 | `betamax` normalises to `beta`: matching is a plain prefix test. |
| Toolchain.DirectoryToolchain | src/lib.rs:50-58 | The I/O error happens exactly when `Command::output` failed. The UTF-8 error happens exactly when it succeeded and the output does not decode. Otherwise the result is `Ok` of the normalised decoded text: the default channel the text starts with, if any, else the whole text unchanged. |
| Toolchain.ActiveToolchain | src/lib.rs:35-40 | With the override set, the result is success: the default channel the override starts with, if any, else a prefix of the override that is the whole override. Without the override, the result is the directory result. |
| Toolchain.GetToolchain | src/lib.rs:86-92 | Directory mode gives the directory result. Otherwise the result is the active result. |
| Toolchain.DirectoryIgnoresStatus | src/lib.rs:51-57 | The directory result does not depend on rustup's exit status. |
| Toolchain.ActiveIgnoresSubprocess | src/lib.rs:36-37 | With the override set, the active result is the normalised override, whatever the subprocess and decoder are. |
| Toolchain.DirectoryModeIgnoresEnv | src/lib.rs:87-89 | In directory mode the result does not depend on the override. |
| Toolchain.DirectoryKeepsCustomNameVerbatim | src/lib.rs:55-57 | Decoded output `my-custom-toolchain\n` is returned with its newline: nothing is trimmed. |
| Toolchain.ActiveOverrideExample | src/lib.rs:36-37 | The override `beta-x86_64-pc-windows-msvc` resolves to `beta`. |
| Cli.ParseFrom | src/main.rs:16-31 | An error names an argument that occurs in the input and is neither accepted nor a help flag. A run happens only when every argument is accepted, and directory mode is set iff it was already set or a directory flag occurs. |
| Cli.Parse | src/main.rs:16-31 | The same as ParseFrom, from the initial state: a run's directory mode is set iff `-d` or `--directory` occurs. |
| Cli.ParseFromReference | src/main.rs:18-31 | Reference meaning of the scan. The first argument that is neither a directory flag nor `toolchain` decides the outcome: help if it is a help flag, otherwise an error naming it. With no such argument the outcome is a run. Every argument list falls into one of these cases. |
| Cli.ParseHelpIff | src/main.rs:22-23 | The outcome is help iff a help flag is the first argument that is not accepted. |
| Cli.ParseUnrecognizedIff | src/main.rs:25-29 | The outcome is an error naming `arg` iff `arg` is the first argument that is not accepted and it is not a help flag. |
| Cli.ParseRunIff | src/main.rs:16-21 | The outcome is a run in mode `d` iff every argument is accepted and `d` says whether a directory flag occurs. Repeating the flag changes nothing. |
| Cli.ToolchainWordIgnored | src/main.rs:24 | Removing every `toolchain` argument leaves the outcome unchanged. |
| Cli.WithoutToolchainWordCounts | src/main.rs:24 | Removing the `toolchain` word drops every occurrence of it and keeps every other argument exactly as often as it occurs. |
| Cli.WithoutToolchainWordAppend | src/main.rs:24 | Removing the `toolchain` word works piecewise on a concatenation, so the remaining arguments keep their order. |
| Cli.WithoutToolchainWordKeeps | src/main.rs:24 | A single argument other than `toolchain` is kept as it is. |
| Cli.CommandLineArgs | src/main.rs:18 | The scanned arguments are the process arguments without the program name. |
| Cli.ExitCode | src/main.rs:22-38 | The exit code of a run that does not panic is 0 or 1. It is 0 iff the outcome is help, or a run whose resolution succeeded. |
| Cli.Execute | src/main.rs:15-40 | For Unicode arguments and a writable standard output and standard error: the resolver is called exactly for a run, and in the parsed mode. The exit code is 0 iff help was asked for or resolution succeeded, and 1 otherwise. Standard output gets a line exactly on a successful run, and that line is the resolved name. |
| Cli.NoResolutionWithoutRun | src/main.rs:22-29 | After help or an unrecognized argument, the resolver is not called and the report does not depend on the environment, the subprocess or the decoder. |
| Cli.HelpOrderExamples | src/main.rs:19-29 | `-h --bogus` gives help and `--bogus -h` gives an error naming `--bogus`. |
| Cli.SubcommandExample | src/main.rs:24 | `toolchain -d` behaves exactly as `-d`. |
| Cli.ExitCodeExamples | src/main.rs:22-28 | `-h` exits 0 and prints nothing on standard output. `--bogus` exits 1. |

## Left out

- Running `rustup show active-toolchain` and removing `RUSTUP_TOOLCHAIN` from its environment (src/lib.rs:51-54). This is operating-system I/O, so its result is the `CommandResult` parameter. Every way `Command::output` can fail (spawning, reading the pipes, waiting) is the one `OutputFailed` case. The removal of the variable has no effect the model can see.
- Reading `RUSTUP_TOOLCHAIN` and the process arguments (src/lib.rs:36, src/main.rs:18). This is I/O, so both are parameters.
- UTF-8 decoding (`String::from_utf8`, src/lib.rs:55). It is a library call, so it is the abstract `Decoder` parameter.
- The text of error payloads, of the help message, and of everything written to standard error (src/main.rs:4-13, 26, 36, 42-44). The model tracks outcome kinds and exit codes, not message text, and models standard output as the printed name without the newline `println!` adds. A failed write to standard error is not text: it is a panic, recorded below under `Cli.Execute`.
- Concurrency and blocking on the child process: the program has none beyond waiting for rustup.
- Cli.Execute: the arguments are Unicode strings, so the panic of `env::args()` (src/main.rs:18) is not modelled. Rust panics with exit code 101 when the iterator reaches an argument that is not valid Unicode. This includes the program name, which `skip(1)` still converts, so a non-Unicode program name panics before any flag is looked at. After that, the scan decides: `-h` followed by a non-Unicode argument still exits 0, but such an argument before `-h` panics. Modelling it would need arguments of type `Option<string>` and a panic outcome.
- Cli.Execute: the panic of `println!` (src/main.rs:34) when standard output cannot be written is not modelled either. It also exits with 101, and the model has no input describing standard output.
- Cli.Execute: the panic of `eprintln!` (src/main.rs:26, 36, 43) when standard error cannot be written is not modelled. An example is a closed pipe: Rust ignores SIGPIPE, so the write fails with EPIPE. Only EBADF is ignored. Then `-h` exits 101 instead of 0, and an unrecognized argument or a failed resolution exits 101 instead of 1. The promise that the exit code is 0 or 1 holds only when none of these three panics happens.
- Cli.ExitCode: for the same three panics, the code 101 is outside its range.
