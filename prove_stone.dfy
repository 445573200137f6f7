/**
 * The starknet-prove-stone crate: a prover that writes the request into a
 * working directory, runs the external stone prover there with a fixed
 * launch profile, and turns the way the process ended into a result.
 *
 * Everything the orchestrator hands to code outside the model (the input
 * writer, spawning, waiting, reading the stderr pipe) goes through a
 * `Host`, whose answers are fixed in advance and which records which of
 * those steps ran, in order.
 */
module ProveStone {
  import opened RustTypes
  import opened Utf8
  import opened ProveCore
  import opened Process

  // The files shared with the external prover, inside the working directory.
  const ProofFile := "proof_file.json"
  const PrivateInputFile := "private_input_file.json"
  const PublicInputFile := "public_input_file.json"
  const ProverConfigFile := "prover_config.json"
  const ParameterFile := "parameter_file.json"
  const MemoryFile := "memory_file.bin"
  const TraceFile := "trace_file.bin"

  /** The five command-line flags, one per file role, in the order they are passed. */
  const FileFlags: seq<string> :=
    ["--out_file", "--private_input_file", "--public_input_file", "--prover-config-file",
     "--parameter_file"]

  /** The file each flag of `FileFlags` names, position by position. */
  const FlaggedFiles: seq<string> :=
    [ProofFile, PrivateInputFile, PublicInputFile, ProverConfigFile, ParameterFile]

  /** All seven basenames: the flagged files, then the two binary buffers. */
  const AllFiles: seq<string> := FlaggedFiles + [MemoryFile, TraceFile]

  /** The message used when the stderr pipe could not be read. */
  const ReadFailureMessage := "<failed to read error message>"

  /** The message used when the captured stderr bytes are not UTF-8. */
  const NotUtf8Message := "<error message is not valid UTF-8>"

  /** A JSON (de)serialisation error, `serde_json::Error`; opaque. */
  datatype SerdeError = SerdeError(description: string)

  /** The errors the stone prover reports. */
  datatype Error =
    | Io(io: IoError)
    | UnexpectedErrorCode(status: ExitStatus, message: string)
    | Serde(serde: SerdeError)

  /** Where the prover runs and which program it runs. */
  datatype StoneConfig = StoneConfig(workingDirectory: string, command: string)

  /**
   * `StoneConfig::default`: run `cpu_air_prover` in the current directory.
   * The command is a bare program name (no path separator), so it is looked
   * up as a command rather than relative to the working directory.
   */
  function DefaultConfig(): (c: StoneConfig)
    ensures c.workingDirectory == "."
    ensures c.command != [] && forall i :: 0 <= i < |c.command| ==> c.command[i] != '/'
  {
    StoneConfig(".", "cpu_air_prover")
  }

  /** Each flag followed by its value, pair after pair. */
  function FlagPairs(flags: seq<string>, values: seq<string>): (r: seq<string>)
    requires |flags| == |values|
    ensures |r| == 2 * |flags|
    ensures forall i :: 0 <= i < |flags| ==> r[2 * i] == flags[i] && r[2 * i + 1] == values[i]
    ensures forall a :: a in r <==> a in flags || a in values
  {
    if flags == [] then []
    else [flags[0], values[0]] + FlagPairs(flags[1..], values[1..])
  }

  /**
   * The launch description `make_command` builds: the configured program
   * in the configured directory, the five flag/file pairs, no environment,
   * stdin and stdout discarded, stderr captured, killed when dropped.
   */
  function StoneProfile(config: StoneConfig): (p: LaunchProfile)
    ensures p.program == config.command && p.currentDir == Some(config.workingDirectory)
    ensures |p.args| == 10
    ensures forall inherited :: p.ChildEnvironment(inherited) == map[]
    ensures p.stdin == Some(Null) && p.stdout == Some(Null) && p.stderr == Some(Piped)
    ensures p.killOnDrop
  {
    LaunchProfile(
      program := config.command,
      currentDir := Some(config.workingDirectory),
      args := FlagPairs(FileFlags, FlaggedFiles),
      envClear := true,
      envs := map[],
      stdin := Some(Null),
      stdout := Some(Null),
      stderr := Some(Piped),
      killOnDrop := true)
  }

  /** The argument list is exactly these ten strings, in this order. */
  lemma StoneArgs()
    ensures FlagPairs(FileFlags, FlaggedFiles) ==
      ["--out_file", "proof_file.json",
       "--private_input_file", "private_input_file.json",
       "--public_input_file", "public_input_file.json",
       "--prover-config-file", "prover_config.json",
       "--parameter_file", "parameter_file.json"]
  {
    var args := FlagPairs(FileFlags, FlaggedFiles);
    assert |args| == 10;
    assert args[0] == FileFlags[0] && args[1] == FlaggedFiles[0];
    assert args[2] == FileFlags[1] && args[3] == FlaggedFiles[1];
    assert args[4] == FileFlags[2] && args[5] == FlaggedFiles[2];
    assert args[6] == FileFlags[3] && args[7] == FlaggedFiles[3];
    assert args[8] == FileFlags[4] && args[9] == FlaggedFiles[4];
  }

  /**
   * The seven basenames are pairwise distinct, and neither binary buffer is
   * passed on the command line.
   */
  lemma FileNamesDistinct()
    ensures forall i, j :: 0 <= i < j < |AllFiles| ==> AllFiles[i] != AllFiles[j]
    ensures forall config :: TraceFile !in StoneProfile(config).args && MemoryFile !in StoneProfile(config).args
  {
  }

  /**
   * Whatever the configuration and the caller's environment, the prover is
   * the configured program in the configured directory, starts with an
   * empty environment, reads nothing, writes only to a captured stderr and
   * is killed if its handle is dropped.
   */
  lemma StoneProfileIsolated(config: StoneConfig, inherited: map<string, string>)
    ensures StoneProfile(config).program == config.command
    ensures StoneProfile(config).currentDir == Some(config.workingDirectory)
    ensures StoneProfile(config).ChildEnvironment(inherited) == map[]
    ensures StoneProfile(config).stdin == Some(Null) && StoneProfile(config).stdout == Some(Null)
    ensures StoneProfile(config).stderr == Some(Piped)
    ensures StoneProfile(config).killOnDrop
  {
  }

  /** `make_command`: build the stone launch description setter by setter. */
  method MakeCommand(config: StoneConfig) returns (command: Command)
    ensures fresh(command)
    ensures command.Profile() == StoneProfile(config)
  {
    command := new Command(config.command);
    command.CurrentDir(config.workingDirectory);
    command.EnvClear();
    command.Arg("--out_file");
    command.Arg(ProofFile);
    command.Arg("--private_input_file");
    command.Arg(PrivateInputFile);
    command.Arg("--public_input_file");
    command.Arg(PublicInputFile);
    command.Arg("--prover-config-file");
    command.Arg(ProverConfigFile);
    command.Arg("--parameter_file");
    command.Arg(ParameterFile);
    assert command.args == ["--out_file", "proof_file.json",
       "--private_input_file", "private_input_file.json",
       "--public_input_file", "public_input_file.json",
       "--prover-config-file", "prover_config.json",
       "--parameter_file", "parameter_file.json"];
    command.Stdout(Null);
    command.Stdin(Null);
    command.Stderr(Piped);
    command.KillOnDrop(true);
    StoneArgs();
  }

  /**
   * The message `error_message` makes of what draining stderr yielded: a
   * sentinel when the read failed, another when the bytes are not UTF-8,
   * and otherwise the text made of exactly the captured bytes.
   */
  function StderrMessage(drain: Result<seq<u8>, IoError>): (message: string)
    ensures drain.Err? ==> message == ReadFailureMessage
    ensures drain.Ok? && !IsUtf8(drain.value) ==> message == NotUtf8Message
    ensures drain.Ok? && IsUtf8(drain.value) ==> Encode(message) == drain.value
  {
    match drain
    case Err(_) => ReadFailureMessage
    case Ok(bytes) =>
      match FromUtf8(bytes)
      case Some(text) => text
      case None => NotUtf8Message
  }

  /** Captured bytes that encode a text give exactly that text. */
  lemma StderrMessageOfText(text: string)
    ensures StderrMessage(Ok(Encode(text))) == text
  {
    FromUtf8Encode(text);
  }

  /** A step `prove` hands to the host, as the host records it. */
  datatype Step =
    | WroteInputs(request: ProofRequest, dir: string)
    | Spawned(profile: LaunchProfile)
    | Waited
    | ReadStderr

  /**
   * The host's answers: how writing the inputs ends, whether spawning
   * succeeds, how waiting ends, and what draining stderr yields.
   */
  datatype Outcomes = Outcomes(
    write: Result<(), Error>,
    spawn: Result<(), IoError>,
    wait: Result<ExitStatus, IoError>,
    stderr: Result<seq<u8>, IoError>)

  /**
   * The operating system and the input writer as `prove` sees them: each
   * step answers as `outcomes` says and is appended to `steps`.
   */
  class Host {
    const outcomes: Outcomes
    var steps: seq<Step>

    constructor (outcomes: Outcomes)
      ensures this.outcomes == outcomes && steps == []
    {
      this.outcomes := outcomes;
      steps := [];
    }

    /** `write_inputs_to_directory`, with its error already converted by `?`. */
    method WriteInputsToDirectory(request: ProofRequest, dir: string) returns (r: Result<(), Error>)
      modifies this
      ensures r == outcomes.write
      ensures steps == old(steps) + [WroteInputs(request, dir)]
    {
      r := outcomes.write;
      steps := steps + [WroteInputs(request, dir)];
    }

    /** `Command::spawn`: a fresh child, holding a stderr pipe exactly when stderr is piped. */
    method Spawn(command: Command) returns (r: Result<Child, IoError>)
      modifies this
      ensures r.Ok? <==> outcomes.spawn.Ok?
      ensures r.Err? ==> r.error == outcomes.spawn.error
      ensures r.Ok? ==> fresh(r.value)
      ensures r.Ok? ==> r.value.stderr ==
                        (if command.stderr == Some(Piped) then Some(ChildStderr(outcomes.stderr)) else None)
      ensures steps == old(steps) + [Spawned(command.Profile())]
    {
      steps := steps + [Spawned(command.Profile())];
      if outcomes.spawn.Err? {
        return Err(outcomes.spawn.error);
      }
      var pipe := if command.stderr == Some(Piped) then Some(ChildStderr(outcomes.stderr)) else None;
      var child := new Child(pipe);
      r := Ok(child);
    }

    /** `Child::wait`. */
    method Wait(child: Child) returns (r: Result<ExitStatus, IoError>)
      modifies this
      ensures r == outcomes.wait
      ensures steps == old(steps) + [Waited]
    {
      r := outcomes.wait;
      steps := steps + [Waited];
    }

    /** `read_to_end`: append everything left in the pipe to `buf`, or fail. */
    method ReadToEnd(pipe: ChildStderr, buf: seq<u8>) returns (r: Result<nat, IoError>, filled: seq<u8>)
      modifies this
      ensures pipe.drain.Ok? ==> r == Ok(|pipe.drain.value|) && filled == buf + pipe.drain.value
      ensures pipe.drain.Err? ==> r == Err(pipe.drain.error) && filled == buf
      ensures steps == old(steps) + [ReadStderr]
    {
      steps := steps + [ReadStderr];
      match pipe.drain
      case Ok(bytes) =>
        r, filled := Ok(|bytes|), buf + bytes;
      case Err(e) =>
        r, filled := Err(e), buf;
    }
  }

  /** `error_message`: drain the stderr pipe into a buffer and decode it. */
  method ErrorMessage(host: Host, stderr: ChildStderr) returns (message: string)
    modifies host
    ensures message == StderrMessage(stderr.drain)
    ensures host.steps == old(host.steps) + [ReadStderr]
  {
    var buf: seq<u8> := [];
    var read;
    read, buf := host.ReadToEnd(stderr, buf);
    if read.Err? {
      return ReadFailureMessage;
    }
    assert buf == stderr.drain.value;
    match FromUtf8(buf)
    case Some(text) =>
      message := text;
    case None =>
      message := NotUtf8Message;
  }

  /**
   * The result of `prove` given the host's answers: the first failing step
   * decides the error; a process that ran but did not succeed gives its
   * status and its stderr message; a successful run gives the (still empty)
   * proof whatever stderr holds.
   */
  function ProveResult(o: Outcomes): (r: Result<Proof, Error>)
    ensures r.Ok? <==> o.write.Ok? && o.spawn.Ok? && o.wait.Ok? && o.wait.value.Success()
    ensures o.write.Err? ==> r == Err(o.write.error)
    ensures o.write.Ok? && o.spawn.Err? ==> r == Err(Io(o.spawn.error))
    ensures o.write.Ok? && o.spawn.Ok? && o.wait.Err? ==> r == Err(Io(o.wait.error))
    ensures o.write.Ok? && o.spawn.Ok? && o.wait.Ok? && !o.wait.value.Success() ==>
      r == Err(UnexpectedErrorCode(o.wait.value, StderrMessage(o.stderr)))
  {
    match o.write
    case Err(e) => Err(e)
    case Ok(_) =>
      match o.spawn
      case Err(e) => Err(Io(e))
      case Ok(_) =>
        match o.wait
        case Err(e) => Err(Io(e))
        case Ok(status) =>
          if !status.Success() then Err(UnexpectedErrorCode(status, StderrMessage(o.stderr)))
          else Ok(Proof)
  }

  /** Every step `prove` can take, in the order it takes them. */
  function AllSteps(request: ProofRequest, dir: string, profile: LaunchProfile): seq<Step> {
    [WroteInputs(request, dir), Spawned(profile), Waited, ReadStderr]
  }

  /**
   * The steps `prove` takes: always a prefix of `AllSteps`, so inputs are
   * written before anything is spawned, nothing is waited on that was not
   * spawned, and stderr is read only after the process ended unsuccessfully.
   */
  function ProveSteps(request: ProofRequest, dir: string, profile: LaunchProfile, o: Outcomes)
    : (steps: seq<Step>)
    ensures steps <= AllSteps(request, dir, profile) && steps != []
    ensures Spawned(profile) in steps <==> o.write.Ok?
    ensures Waited in steps <==> o.write.Ok? && o.spawn.Ok?
    ensures ReadStderr in steps <==> o.write.Ok? && o.spawn.Ok? && o.wait.Ok? && !o.wait.value.Success()
  {
    if o.write.Err? then [WroteInputs(request, dir)]
    else if o.spawn.Err? then [WroteInputs(request, dir), Spawned(profile)]
    else if o.wait.Err? || o.wait.value.Success() then [WroteInputs(request, dir), Spawned(profile), Waited]
    else AllSteps(request, dir, profile)
  }

  /** On success the stderr contents cannot change what `prove` returns or does. */
  lemma SuccessIgnoresStderr(o: Outcomes, other: Result<seq<u8>, IoError>, request: ProofRequest,
                             dir: string, profile: LaunchProfile)
    requires o.write.Ok? && o.spawn.Ok? && o.wait.Ok? && o.wait.value.Success()
    ensures ProveResult(o) == ProveResult(o.(stderr := other)) == Ok(Proof)
    ensures ProveSteps(request, dir, profile, o) == ProveSteps(request, dir, profile, o.(stderr := other))
    ensures ReadStderr !in ProveSteps(request, dir, profile, o)
  {
  }

  /** A prover that exits 0 gives the placeholder proof, whatever its stderr. */
  lemma ExitZeroProves(stderr: Result<seq<u8>, IoError>)
    ensures ProveResult(Outcomes(Ok(()), Ok(()), Ok(Exited(0)), stderr)) == Ok(Proof)
  {
  }

  /** A prover that exits 1 and writes nothing gives status 1 and an empty message. */
  lemma ExitOneSilent()
    ensures ProveResult(Outcomes(Ok(()), Ok(()), Ok(Exited(1)), Ok([]))) ==
      Err(UnexpectedErrorCode(Exited(1), ""))
  {
    StderrMessageOfText("");
  }

  /** A prover that writes "boom" and exits 2 gives status 2 and the message "boom". */
  lemma ExitTwoBoom()
    ensures ProveResult(Outcomes(Ok(()), Ok(()), Ok(Exited(2)), Ok([0x62, 0x6F, 0x6F, 0x6D]))) ==
      Err(UnexpectedErrorCode(Exited(2), "boom"))
  {
    StderrMessageOfText("boom");
    assert Encode("boom") == [0x62, 0x6F, 0x6F, 0x6D];
  }

  /** `StoneProver`: the working directory and the command it launches there. */
  class StoneProver {
    var workingDirectory: string
    var command: Command

    /** The command is the stone launch description for this directory. */
    ghost predicate Valid()
      reads this, command
    {
      command.Profile() == StoneProfile(StoneConfig(workingDirectory, command.program))
    }

    /** `StoneProver::new`. */
    constructor (config: StoneConfig)
      ensures Valid() && fresh(command)
      ensures workingDirectory == config.workingDirectory
      ensures command.Profile() == StoneProfile(config)
    {
      var c := MakeCommand(config);
      command := c;
      workingDirectory := config.workingDirectory;
    }

    /**
     * `prove`: write the inputs, spawn the prover, wait for it and classify
     * how it ended. The result is `ProveResult` of the host's answers and the
     * host saw exactly the steps `ProveSteps` lists.
     */
    method Prove(request: ProofRequest, host: Host) returns (r: Result<Proof, Error>)
      requires Valid()
      modifies host
      ensures r == ProveResult(host.outcomes)
      ensures host.steps ==
        old(host.steps) + ProveSteps(request, workingDirectory, command.Profile(), host.outcomes)
    {
      var written := host.WriteInputsToDirectory(request, workingDirectory);
      if written.Err? {
        return Err(written.error);
      }
      var spawned := host.Spawn(command);
      if spawned.Err? {
        return Err(Io(spawned.error));
      }
      var child := spawned.value;
      var stderr := child.TakeStderr();
      assert stderr.Some?;
      var waited := host.Wait(child);
      if waited.Err? {
        return Err(Io(waited.error));
      }
      var status := waited.value;
      if !status.Success() {
        var message := ErrorMessage(host, stderr.value);
        return Err(UnexpectedErrorCode(status, message));
      }
      r := Ok(Proof);
    }
  }

  /** A default-configured prover runs `cpu_air_prover` in `.`. */
  lemma DefaultProfile()
    ensures StoneProfile(DefaultConfig()).program == "cpu_air_prover"
    ensures StoneProfile(DefaultConfig()).currentDir == Some(".")
  {
  }
}
