# Stone prover orchestration, modelled in Dafny

This project models the two deterministic pieces of the repository's proving
crates and proves their properties:

- **starknet-prove-core**: the closed set of nine execution layouts, the
  layout-to-name table (`Layout::name`), its partial inverse
  (`FromStr for Layout`), and the proof-request data a proving call carries
  (`ProofRequest`, `MemorySegment`, `MemoryEntry`, `Proof`).
- **starknet-prove-stone**: the `StoneProver`, which writes a request into a
  working directory, launches the external stone prover there, waits for it
  and classifies how it ended. The model covers the fixed file basenames, the
  error taxonomy, `StoneConfig::default`, `StoneProver::new`, the launch
  profile `make_command` builds, `error_message`, and the control flow of
  `prove`.

Files (one module per component):

- `rust_types.dfy` (`RustTypes`): `u8`, `Option`, `Result`.
- `utf8.dfy` (`Utf8`): the UTF-8 byte-sequence syntax of section 4 of
  RFC 3629 written as a grammar (`IsUtf8`), the UTF-8 encoding of a text
  (`Encode`), and `String::from_utf8` as the decoder `FromUtf8`, proved to
  accept exactly the grammar and to give back the very bytes it was given.
- `prove_core.dfy` (`ProveCore`): layouts and the request data model.
- `process.dfy` (`Process`): tokio's `Command` builder as a class whose setters
  update it in place, the child process and its stderr pipe, `ExitStatus`.
- `prove_stone.dfy` (`ProveStone`): the stone prover itself.

The operating system and the input writer are not modelled; a `Host` object
stands for them. It answers each step that `prove` hands off (write the
inputs, spawn, wait, drain stderr) with an outcome fixed in advance, and it
records the steps in order. `StoneProver.Prove` is proved against two functions
of those outcomes. `ProveResult` gives the returned value. `ProveSteps` gives
the steps taken, and these are always a prefix of write, spawn, wait, read
stderr.

A Rust `String` is modelled as the Dafny `string` (a sequence of Unicode
scalar values) its UTF-8 bytes encode. "The message is exactly the captured
text" is stated as `Encode(message) == bytes`. Because `FromUtf8(Encode(t)) == Some(t)`,
that equation pins the message down uniquely.

## Model

| member | source | states |
|---|---|---|
| ProveCore.Name | crates/starknet-prove-core/src/lib.rs:27-43 | every layout name is non-empty snake case (lower-case ASCII letters and single inner underscores) and is one of the nine names `from_str` accepts |
| ProveCore.FromStr | crates/starknet-prove-core/src/lib.rs:52-68 | `Ok(l)` only for the string that is `l`'s name; `Err(())` exactly when no layout has that name |
| ProveCore.FromStrName | crates/starknet-prove-core/src/lib.rs:31-68 | parsing the name of any layout gives that layout back |
| ProveCore.NameInjective | crates/starknet-prove-core/src/lib.rs:32-42 | distinct layouts have distinct names |
| ProveCore.AcceptedNames | crates/starknet-prove-core/src/lib.rs:56-66 | the accepted strings are exactly the nine listed names, which are exactly the image of `name` |
| ProveCore.NineLayouts | crates/starknet-prove-core/src/lib.rs:14-25 | the enumeration has exactly nine distinct variants and nine distinct names |
| Utf8.CharWidth | crates/starknet-prove-stone/src/lib.rs:185 | the leading-byte decision picks the one prefix of length 1 to 4 that is a UTF8-char, and 0 when there is none (UTF-8 is prefix-free) |
| Utf8.FromUtf8 | crates/starknet-prove-stone/src/lib.rs:185-188 | `String::from_utf8` succeeds exactly on the byte sequences of the RFC 3629 grammar, and the text it returns encodes to exactly the input bytes |
| Utf8.FromUtf8Encode | crates/starknet-prove-stone/src/lib.rs:185-186 | every text's encoding decodes back to that text |
| Utf8.DecodeCharEncodes | crates/starknet-prove-stone/src/lib.rs:185-186 | every UTF8-char is the encoding of the scalar value it decodes to |
| Utf8.EncodeCharIsUtf8Char | crates/starknet-prove-stone/src/lib.rs:185-186 | every scalar value encodes to a single UTF8-char that decodes back to it |
| Process.Command.constructor | crates/starknet-prove-stone/src/lib.rs:155 | `Command::new` records the program with no arguments, no directory, the inherited environment, default streams and no kill-on-drop |
| Process.Command.CurrentDir | crates/starknet-prove-stone/src/lib.rs:158 | sets the working directory and nothing else |
| Process.Command.EnvClear | crates/starknet-prove-stone/src/lib.rs:159 | clears the environment (flag set, no variables) and nothing else |
| Process.Command.Arg | crates/starknet-prove-stone/src/lib.rs:160-169 | appends exactly one argument and changes nothing else |
| Process.Command.Stdout | crates/starknet-prove-stone/src/lib.rs:170 | sets stdout's policy and nothing else |
| Process.Command.Stdin | crates/starknet-prove-stone/src/lib.rs:171 | sets stdin's policy and nothing else |
| Process.Command.Stderr | crates/starknet-prove-stone/src/lib.rs:172 | sets stderr's policy and nothing else |
| Process.Command.KillOnDrop | crates/starknet-prove-stone/src/lib.rs:173 | sets the kill-on-drop flag and nothing else |
| Process.Child.TakeStderr | crates/starknet-prove-stone/src/lib.rs:136 | hands over the stderr pipe and leaves `None` in the child |
| ProveStone.FlagPairs | crates/starknet-prove-stone/src/lib.rs:160-169 | the argument list has two entries per flag, flag `i` at position `2i` followed by its file, and contains nothing but flags and their files |
| ProveStone.StoneArgs | crates/starknet-prove-stone/src/lib.rs:17-21 | the arguments are exactly `--out_file proof_file.json --private_input_file private_input_file.json --public_input_file public_input_file.json --prover-config-file prover_config.json --parameter_file parameter_file.json`, in that order |
| ProveStone.FileNamesDistinct | crates/starknet-prove-stone/src/lib.rs:17-23 | the seven basenames are pairwise distinct, and neither `.bin` buffer appears among the arguments, whatever the configuration |
| ProveStone.StoneProfileIsolated | crates/starknet-prove-stone/src/lib.rs:155-173 | for any configuration and any caller environment: program and directory come from the configuration, the child's environment is empty, stdin and stdout are null, stderr is piped and kill-on-drop is set |
| ProveStone.MakeCommand | crates/starknet-prove-stone/src/lib.rs:154-176 | the setter chain yields a fresh command whose launch profile is exactly the stone profile of the configuration |
| ProveStone.DefaultConfig | crates/starknet-prove-stone/src/lib.rs:71-78 | the default working directory is `.` and the default command is a non-empty bare program name without a path separator |
| ProveStone.StoneProfile | crates/starknet-prove-stone/src/lib.rs:155-173 | the launch record `make_command` builds: the configured program and directory, ten arguments, an empty child environment whatever the caller's, null stdin and stdout, piped stderr, kill-on-drop set |
| Process.ExitStatus.Success | crates/starknet-prove-stone/src/lib.rs:141 | `status.success()` holds exactly for the status "exited with code 0" |
| ProveStone.DefaultProfile | crates/starknet-prove-stone/src/lib.rs:71-78 | the default configuration launches `cpu_air_prover` in `.` |
| ProveStone.StderrMessage | crates/starknet-prove-stone/src/lib.rs:181-188 | a failed read gives `<failed to read error message>`; bytes outside the UTF-8 grammar give `<error message is not valid UTF-8>`; otherwise the message is the text made of exactly the captured bytes |
| ProveStone.StderrMessageOfText | crates/starknet-prove-stone/src/lib.rs:185-186 | captured bytes that encode a text give exactly that text |
| ProveStone.ErrorMessage | crates/starknet-prove-stone/src/lib.rs:179-189 | reading the pipe into an empty buffer and decoding it returns `StderrMessage` of what the pipe yields, after one read step |
| ProveStone.Host.WriteInputsToDirectory | crates/starknet-prove-stone/src/lib.rs:133 | the input writer's outcome is returned and one write step is recorded with the request and directory |
| ProveStone.Host.Spawn | crates/starknet-prove-stone/src/lib.rs:135 | a spawn fails with the host's I/O error or yields a fresh child holding a stderr pipe exactly when stderr was piped; the launched profile is recorded |
| ProveStone.Host.Wait | crates/starknet-prove-stone/src/lib.rs:137 | waiting returns the host's status or I/O error and records one wait step |
| ProveStone.Host.ReadToEnd | crates/starknet-prove-stone/src/lib.rs:181 | draining appends all of the pipe's bytes to the buffer, or reports its I/O error, and records one read step |
| ProveStone.ProveResult | crates/starknet-prove-stone/src/lib.rs:132-149 | success exactly when writing, spawning and waiting succeed and the status is success; the first failing step's error otherwise, with a spawn or wait failure as `Io`, and an unsuccessful status as `UnexpectedErrorCode(status, message)` carrying the waited status and the stderr message |
| ProveStone.ProveSteps | crates/starknet-prove-stone/src/lib.rs:133-143 | steps run in the order write, spawn, wait, read stderr and stop early: no spawn after a failed write, no wait after a failed spawn, stderr read exactly when the process ended unsuccessfully |
| ProveStone.SuccessIgnoresStderr | crates/starknet-prove-stone/src/lib.rs:141-148 | on a successful status the result is `Ok(Proof)` and neither the result nor the steps depend on stderr, which is never read |
| ProveStone.ExitZeroProves | crates/starknet-prove-stone/src/lib.rs:141-148 | a prover that exits 0 yields the placeholder proof whatever it wrote to stderr |
| ProveStone.ExitOneSilent | crates/starknet-prove-stone/src/lib.rs:139-143 | exit code 1 with empty stderr yields `UnexpectedErrorCode` with status 1 and the empty message |
| ProveStone.ExitTwoBoom | crates/starknet-prove-stone/src/lib.rs:139-143 | exit code 2 with stderr bytes `boom` yields `UnexpectedErrorCode` with status 2 and message `"boom"` |
| ProveStone.StoneProver.constructor | crates/starknet-prove-stone/src/lib.rs:116-126 | `StoneProver::new` keeps the configured working directory unchanged and holds a freshly built command, owned by the prover alone, with the stone launch profile of the configuration |
| ProveStone.StoneProver.Prove | crates/starknet-prove-stone/src/lib.rs:129-149 | `prove` returns `ProveResult` of the host's outcomes and performs exactly the steps `ProveSteps` lists, spawning the prover's own launch profile after writing into its working directory |

## Left out

- The `Prove` trait (crates/starknet-prove-core/src/lib.rs:132-141) is not modelled as a generic interface, because traits are outside the Dafny subset used here. `StoneProver.Prove` is its one implementation. The `Send` bound and the lifetime independence of the returned future are type-system and concurrency properties, not runtime behaviour.
- Asynchrony, exclusive `&mut self` access and cancellation are not modelled: each `await` is an ordinary call. The `kill_on_drop` termination guarantee is represented only by the flag value in the launch profile.
- Real process spawning, waiting and pipe reading are left out. They are operating-system behaviour, so the `Host` supplies their outcomes. Each `Host` stands for one call's environment.
- `write_inputs_to_directory` (the `input` module, crates/starknet-prove-stone/src/lib.rs:13-15) is not part of this model, and neither are the file formats it writes. Its outcome may be any `Error`: the model leaves the input writer's error type open, and the `?` at lib.rs:133 converts it with `From`.
- The `Serde` variant is never constructed in lib.rs; an input-writer failure may still be any `Error`, `Serde` included.
- Parsing `proof_file.json` into a `Proof` is an unimplemented TODO upstream, so success always gives the empty `Proof`.
- Resolving `command` against the working directory or `PATH` is left out, because it is operating-system lookup. A `Command` records the program string as given.
- `Display for Layout` (`f.pad` formatting) and the `#[error(...)]` display strings of `Error` are left out, because they are formatter machinery.
- `Felt` is an opaque carrier, because nothing here computes with field elements. The `usize`/`isize` fields of the request are unbounded `nat`/`int`, because no arithmetic is done on them.
- `ExitStatus` is modelled as "exited with a code" or "ended by a signal". Success means exit code 0, as on Unix. Platform-specific raw encodings are left out.
- `StoneConfig.working_directory` (`PathBuf`) and `StoneConfig.command` (`OsString`) are modelled as Dafny `string`, which cannot hold the non-Unicode byte strings Unix paths allow. No proved property depends on the difference.
- `prove` drains stderr only after `child.wait()` returns (lib.rs:137-142). A child that writes more than the pipe buffer holds blocks on the write and never exits, so `prove` hangs. The model does not capture this, because `Host.Wait` answers regardless of how much the child wrote: there `ProveResult` gives the full message for stderr of any length.
- `ProveStone.Host.ReadToEnd`: on a read error the model leaves the buffer unchanged rather than holding whatever was read before the error. `error_message` discards the buffer in that case anyway.
- `child.stderr.take().unwrap()` can panic in Rust. The model does not represent the panic. `StoneProver.Valid()` shows stderr is always piped, so `Host.Spawn` always hands over a pipe.
- The data-availability marker trait (crates/starknet-dal-core/src/lib.rs) is left out, because it has no behaviour.
