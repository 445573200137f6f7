/**
 * The part of tokio's process API the stone orchestrator relies on: a
 * `Command` builder that records a launch description, the child process
 * it spawns, and exit statuses. Spawning and waiting themselves belong to
 * the operating system and are given as outcomes (see ProveStone.Host).
 */
module Process {
  import opened RustTypes

  /** An operating-system error, `std::io::Error`; opaque. */
  datatype IoError = IoError(code: int)

  /** What a standard stream of the child is connected to. */
  datatype Stdio = Null | Piped | Inherit

  /** How a child process ended: with an exit code, or by a signal. */
  datatype ExitStatus = Exited(code: int) | Signaled(signal: int) {
    /** `ExitStatus::success`: the process exited, with code 0. */
    predicate Success()
      ensures Success() <==> this == Exited(0)
    {
      Exited? && code == 0
    }
  }

  /**
   * A launch description: everything a `Command` has been told. `None`
   * for a stream or the directory means the builder was not told, so the
   * child inherits the parent's.
   */
  datatype LaunchProfile = LaunchProfile(
    program: string,
    currentDir: Option<string>,
    args: seq<string>,
    envClear: bool,
    envs: map<string, string>,
    stdin: Option<Stdio>,
    stdout: Option<Stdio>,
    stderr: Option<Stdio>,
    killOnDrop: bool)
  {
    /**
     * The environment the child starts with when the parent's is
     * `inherited`: the variables set on the builder, over the inherited
     * ones unless the builder cleared them.
     */
    function ChildEnvironment(inherited: map<string, string>): map<string, string> {
      if envClear then envs else inherited + envs
    }
  }

  /** `tokio::process::Command`, a builder whose every setter updates it in place. */
  class Command {
    var program: string
    var currentDir: Option<string>
    var args: seq<string>
    var envClear: bool
    var envs: map<string, string>
    var stdin: Option<Stdio>
    var stdout: Option<Stdio>
    var stderr: Option<Stdio>
    var killOnDrop: bool

    /** The launch description built so far. */
    function Profile(): LaunchProfile
      reads this
    {
      LaunchProfile(program, currentDir, args, envClear, envs, stdin, stdout, stderr, killOnDrop)
    }

    /** `Command::new`: run `program` with no arguments and everything else inherited. */
    constructor (program: string)
      ensures Profile() == LaunchProfile(program, None, [], false, map[], None, None, None, false)
    {
      this.program := program;
      currentDir := None;
      args := [];
      envClear := false;
      envs := map[];
      stdin := None;
      stdout := None;
      stderr := None;
      killOnDrop := false;
    }

    /** `Command::current_dir`. */
    method CurrentDir(dir: string)
      modifies this
      ensures Profile() == old(Profile()).(currentDir := Some(dir))
    {
      currentDir := Some(dir);
    }

    /** `Command::env_clear`: forget the inherited environment and every variable set so far. */
    method EnvClear()
      modifies this
      ensures Profile() == old(Profile()).(envClear := true, envs := map[])
    {
      envClear := true;
      envs := map[];
    }

    /** `Command::arg`: append one argument. */
    method Arg(arg: string)
      modifies this
      ensures Profile() == old(Profile()).(args := old(args) + [arg])
    {
      args := args + [arg];
    }

    /** `Command::stdin`. */
    method Stdin(cfg: Stdio)
      modifies this
      ensures Profile() == old(Profile()).(stdin := Some(cfg))
    {
      stdin := Some(cfg);
    }

    /** `Command::stdout`. */
    method Stdout(cfg: Stdio)
      modifies this
      ensures Profile() == old(Profile()).(stdout := Some(cfg))
    {
      stdout := Some(cfg);
    }

    /** `Command::stderr`. */
    method Stderr(cfg: Stdio)
      modifies this
      ensures Profile() == old(Profile()).(stderr := Some(cfg))
    {
      stderr := Some(cfg);
    }

    /** `Command::kill_on_drop`. */
    method KillOnDrop(kill: bool)
      modifies this
      ensures Profile() == old(Profile()).(killOnDrop := kill)
    {
      killOnDrop := kill;
    }
  }

  /** The read end of a child's standard-error pipe: what draining it to end of file yields. */
  datatype ChildStderr = ChildStderr(drain: Result<seq<u8>, IoError>)

  /** `tokio::process::Child`: a running child, holding its stderr pipe when there is one. */
  class Child {
    var stderr: Option<ChildStderr>

    constructor (stderr: Option<ChildStderr>)
      ensures this.stderr == stderr
    {
      this.stderr := stderr;
    }

    /** `child.stderr.take()`: hand over the pipe, leaving `None` behind. */
    method TakeStderr() returns (pipe: Option<ChildStderr>)
      modifies this
      ensures pipe == old(stderr) && stderr == None
    {
      pipe := stderr;
      stderr := None;
    }
  }
}
