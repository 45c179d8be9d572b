/** The resolver of cargo-toolchain: normalisation of a rustup toolchain name
    and the two lookup strategies (environment override, `rustup` query).

    The process environment, the `rustup show active-toolchain` subprocess and
    the UTF-8 decoder of its standard output are inputs here, not effects. */
module Toolchain {
  import opened Wrappers

  /** A byte of the subprocess's standard output. */
  newtype byte = x: int | 0 <= x < 256

  /** The canonical channel names, in the order they are tried. */
  const DefaultProfiles: seq<string> := ["stable", "beta", "nightly"]

  /** What `Command::output` on `rustup show active-toolchain` produced:
      either an I/O error (the process could not be started, or reading its
      pipes or waiting for it failed), or an exit status (None when the process
      was ended by a signal) with the bytes it wrote to standard output. */
  datatype CommandResult =
    | OutputFailed
    | Output(status: Option<int>, stdout: seq<byte>)

  /** Why resolution failed: running the subprocess gave an I/O error, or its
      output was not valid UTF-8. */
  datatype Error = IoError | Utf8Error

  /** A decoder from bytes to text; None when the bytes are not valid UTF-8. */
  type Decoder = seq<byte> -> Option<string>

  /** The names a list holds, as a set. */
  function Elements(profiles: seq<string>): set<string>
  {
    set p | p in profiles
  }

  /** No element is a proper prefix of another: at most one of them can be a
      prefix of any given name. */
  predicate PrefixFree(profiles: set<string>) {
    forall a, b :: a in profiles && b in profiles && a != b ==> !(a <= b)
  }

  /** Some profile is a prefix of `toolchain`. */
  predicate MatchesSome(toolchain: string, profiles: seq<string>) {
    exists i :: 0 <= i < |profiles| && profiles[i] <= toolchain
  }

  /** The scan over `profiles`: the first one that `toolchain` starts with,
      otherwise `toolchain` itself. */
  function TruncateFrom(toolchain: string, profiles: seq<string>): (r: string)
    ensures r <= toolchain
    ensures r == toolchain || r in profiles
    ensures !MatchesSome(toolchain, profiles) ==> r == toolchain
    ensures MatchesSome(toolchain, profiles) ==>
              exists i :: 0 <= i < |profiles| && profiles[i] == r && r <= toolchain &&
                          forall j :: 0 <= j < i ==> !(profiles[j] <= toolchain)
    decreases |profiles|
  {
    if |profiles| == 0 then toolchain
    else if profiles[0] <= toolchain then profiles[0]
    else
      var r := TruncateFrom(toolchain, profiles[1..]);
      assert MatchesSome(toolchain, profiles) ==> MatchesSome(toolchain, profiles[1..]) by {
        if MatchesSome(toolchain, profiles) {
          var i :| 0 <= i < |profiles| && profiles[i] <= toolchain;
          assert i != 0;
          assert profiles[1..][i - 1] <= toolchain;
        }
      }
      assert MatchesSome(toolchain, profiles[1..]) ==>
               exists i :: 0 <= i < |profiles| && profiles[i] == r &&
                           forall j :: 0 <= j < i ==> !(profiles[j] <= toolchain) by {
        if MatchesSome(toolchain, profiles[1..]) {
          var k :| 0 <= k < |profiles[1..]| && profiles[1..][k] == r &&
                   forall j :: 0 <= j < k ==> !(profiles[1..][j] <= toolchain);
          assert profiles[k + 1] == r;
          forall j | 0 <= j < k + 1 ensures !(profiles[j] <= toolchain) {
            if j > 0 { assert profiles[j] == profiles[1..][j - 1]; }
          }
        }
      }
      r
  }

  /** Rust's `truncate_toolchain`: drops the platform triple from a name that
      starts with a default channel, and keeps any other name unchanged. */
  function Truncate(toolchain: string): (r: string)
    ensures r <= toolchain
    ensures |r| <= |toolchain|
    ensures r == toolchain || r in DefaultProfiles
    ensures !MatchesSome(toolchain, DefaultProfiles) ==> r == toolchain
  {
    TruncateFrom(toolchain, DefaultProfiles)
  }

  /** Two prefixes of one name are comparable: the shorter is a prefix of the
      longer. */
  lemma PrefixesComparable(a: string, b: string, t: string)
    requires a <= t && b <= t
    ensures a <= b || b <= a
  {
  }

  /** With a prefix-free list, the only match is the result, whatever its
      position in the list. */
  lemma {:induction false} TruncateFromUnique(toolchain: string, profiles: seq<string>, p: string)
    requires PrefixFree(Elements(profiles))
    requires p in profiles && p <= toolchain
    ensures TruncateFrom(toolchain, profiles) == p
  {
    var r := TruncateFrom(toolchain, profiles);
    assert MatchesSome(toolchain, profiles) by {
      var i :| 0 <= i < |profiles| && profiles[i] == p;
    }
    assert r in profiles && r <= toolchain;
    PrefixesComparable(r, p, toolchain);
    assert r in Elements(profiles) && p in Elements(profiles);
  }

  /** The scan order of a prefix-free list does not matter: any list with the
      same elements gives the same result. */
  lemma {:induction false} ScanOrderIrrelevant(toolchain: string, ps: seq<string>, qs: seq<string>)
    requires Elements(ps) == Elements(qs)
    requires PrefixFree(Elements(ps))
    ensures TruncateFrom(toolchain, ps) == TruncateFrom(toolchain, qs)
  {
    var r := TruncateFrom(toolchain, ps);
    if r in ps && r <= toolchain {
      assert r in Elements(ps);
      assert r in Elements(qs);
      TruncateFromUnique(toolchain, ps, r);
      TruncateFromUnique(toolchain, qs, r);
    } else {
      assert r == toolchain && !(r in ps);
      assert !MatchesSome(toolchain, ps);
      forall i | 0 <= i < |qs| ensures !(qs[i] <= toolchain) {
        assert qs[i] in Elements(ps);
        var j :| 0 <= j < |ps| && ps[j] == qs[i];
      }
    }
  }

  /** No default channel name is a prefix of another one. */
  lemma DefaultProfilesPrefixFree()
    ensures PrefixFree(Elements(DefaultProfiles))
  {
    assert Elements(DefaultProfiles) == {"stable", "beta", "nightly"};
    assert "stable"[0] == 's' && "beta"[0] == 'b' && "nightly"[0] == 'n';
  }

  /** The reference meaning of `Truncate`: the default channel the name starts
      with, if there is one (there is at most one), otherwise the name. */
  lemma TruncateReference(toolchain: string)
    ensures forall p :: p in DefaultProfiles && p <= toolchain ==> Truncate(toolchain) == p
    ensures (forall p :: p in DefaultProfiles ==> !(p <= toolchain)) ==> Truncate(toolchain) == toolchain
  {
    DefaultProfilesPrefixFree();
    forall p | p in DefaultProfiles && p <= toolchain ensures Truncate(toolchain) == p {
      TruncateFromUnique(toolchain, DefaultProfiles, p);
    }
  }

  /** Any order of the three channels would give the same result as the
      fixed order stable, beta, nightly. */
  lemma DefaultOrderIrrelevant(toolchain: string, order: seq<string>)
    requires Elements(order) == Elements(DefaultProfiles)
    ensures TruncateFrom(toolchain, order) == Truncate(toolchain)
  {
    DefaultProfilesPrefixFree();
    ScanOrderIrrelevant(toolchain, DefaultProfiles, order);
  }

  /** Normalising twice is normalising once. */
  lemma TruncateIdempotent(toolchain: string)
    ensures Truncate(Truncate(toolchain)) == Truncate(toolchain)
  {
  }

  /** The first documented example: a nightly name with its triple. */
  lemma TruncateNightlyExample()
    ensures Truncate("nightly-x86_64-unknown-linux-gnu") == "nightly"
  {
    var t: string := "nightly-x86_64-unknown-linux-gnu";
    assert t[..7] == "nightly" == DefaultProfiles[2];
    assert "nightly" in DefaultProfiles && "nightly" <= t;
    TruncateReference("nightly-x86_64-unknown-linux-gnu");
  }

  /** The second documented example: a custom name is kept unchanged. */
  lemma TruncateCustomExample()
    ensures Truncate("my-custom-toolchain") == "my-custom-toolchain"
  {
    assert !MatchesSome("my-custom-toolchain", DefaultProfiles) by {
      assert "my-custom-toolchain"[0] == 'm';
    }
  }

  /** No separator is needed after the channel name. */
  lemma TruncateNoSeparatorExample()
    ensures Truncate("betamax") == "beta"
  {
    var t: string := "betamax";
    assert t[..4] == "beta" == DefaultProfiles[1];
    assert "beta" in DefaultProfiles && "beta" <= t;
    TruncateReference("betamax");
  }

  /** Rust's `get_directory_toolchain`: the name rustup reports for the
      directory, normalised. Only an I/O error and undecodable output are
      errors; the exit status is not looked at and nothing is trimmed. */
  function DirectoryToolchain(output: CommandResult, decode: Decoder): (r: Result<string, Error>)
    ensures r == Err(IoError) <==> output.OutputFailed?
    ensures r == Err(Utf8Error) <==> output.Output? && decode(output.stdout).None?
    ensures r.Ok? <==> output.Output? && decode(output.stdout).Some?
    ensures r.Ok? ==> r.value <= decode(output.stdout).value
    ensures r.Ok? ==> r.value in DefaultProfiles || r.value == decode(output.stdout).value
    ensures r.Ok? ==> forall p :: p in DefaultProfiles && p <= decode(output.stdout).value ==> r.value == p
    ensures r.Ok? && !MatchesSome(decode(output.stdout).value, DefaultProfiles) ==>
              r.value == decode(output.stdout).value
    ensures output.Output? && decode(output.stdout).Some? ==> r == Ok(Truncate(decode(output.stdout).value))
  {
    match output
    case OutputFailed => Err(IoError)
    case Output(_, stdout) =>
      match decode(stdout)
      case None => Err(Utf8Error)
      case Some(text) =>
        TruncateReference(text);
        Ok(Truncate(text))
  }

  /** Rust's `get_active_toolchain`: the override in `RUSTUP_TOOLCHAIN` when
      it is set (and valid Unicode), otherwise the directory default. */
  function ActiveToolchain(env: Option<string>, output: CommandResult, decode: Decoder): (r: Result<string, Error>)
    ensures env.Some? ==> r.Ok? && r.value <= env.value
    ensures env.Some? ==> r.value in DefaultProfiles || r.value == env.value
    ensures env.Some? ==> forall p :: p in DefaultProfiles && p <= env.value ==> r == Ok(p)
    ensures env.None? ==> r == DirectoryToolchain(output, decode)
  {
    match env
    case Some(toolchain) =>
      TruncateReference(toolchain);
      Ok(Truncate(toolchain))
    case None => DirectoryToolchain(output, decode)
  }

  /** Rust's `get_toolchain`: the directory default when asked for it,
      otherwise the active toolchain. */
  function GetToolchain(directoryDefault: bool, env: Option<string>, output: CommandResult, decode: Decoder): (r: Result<string, Error>)
    ensures directoryDefault ==> r == DirectoryToolchain(output, decode)
    ensures !directoryDefault ==> r == ActiveToolchain(env, output, decode)
  {
    if directoryDefault then DirectoryToolchain(output, decode)
    else ActiveToolchain(env, output, decode)
  }

  /** The directory result does not depend on the exit status of rustup. */
  lemma DirectoryIgnoresStatus(s1: Option<int>, s2: Option<int>, stdout: seq<byte>, decode: Decoder)
    ensures DirectoryToolchain(Output(s1, stdout), decode) == DirectoryToolchain(Output(s2, stdout), decode)
  {
  }

  /** When the override is set, the subprocess and the decoder are never
      consulted: the active result is the normalised override. */
  lemma ActiveIgnoresSubprocess(toolchain: string, o1: CommandResult, d1: Decoder, o2: CommandResult, d2: Decoder)
    ensures ActiveToolchain(Some(toolchain), o1, d1) == Ok(Truncate(toolchain))
    ensures ActiveToolchain(Some(toolchain), o1, d1) == ActiveToolchain(Some(toolchain), o2, d2)
  {
  }

  /** In directory mode the override is ignored. */
  lemma DirectoryModeIgnoresEnv(e1: Option<string>, e2: Option<string>, output: CommandResult, decode: Decoder)
    ensures GetToolchain(true, e1, output, decode) == GetToolchain(true, e2, output, decode)
  {
  }

  /** Output of rustup that names no default channel is passed through as
      decoded, trailing newline included. */
  lemma DirectoryKeepsCustomNameVerbatim(status: Option<int>, stdout: seq<byte>, decode: Decoder)
    requires decode(stdout) == Some("my-custom-toolchain\n")
    ensures DirectoryToolchain(Output(status, stdout), decode) == Ok("my-custom-toolchain\n")
  {
    assert !MatchesSome("my-custom-toolchain\n", DefaultProfiles) by {
      assert "my-custom-toolchain\n"[0] == 'm';
    }
  }

  /** An override carrying a platform triple resolves to its channel. */
  lemma ActiveOverrideExample(output: CommandResult, decode: Decoder)
    ensures ActiveToolchain(Some("beta-x86_64-pc-windows-msvc"), output, decode) == Ok("beta")
  {
  }
}
