/** `SpawnHelper`: a supervisor for child processes. It runs one-shot
    commands to completion, keeps long-running ones in a list, and tries
    to kill every kept process when it is torn down.

    Every effect on the operating system (creating the log file, cloning
    its handle, launching the process, waiting for it, killing it) is an
    outcome the caller supplies, so the model decides only what the
    helper does with those outcomes. */
module Supervisor {
  import opened Wrappers
  import opened Whitespace

  /** An OS process id (`u32`). */
  newtype ProcId = x: int | 0 <= x < 0x1_0000_0000

  /** An `std::io::Error`, abstracted to an opaque code. */
  datatype IoError = IoError(code: int)

  /** How a waited-for process ended. */
  datatype ExitStatus = Exited(code: int) | Signaled(signal: int) {
    /** `ExitStatus::success`: exited normally with code zero. */
    predicate Success() {
      Exited? && code == 0
    }
  }

  /** The errors the helper reports: an I/O error converted with `?` or
      `into()`, or the custom error of a one-shot command that ended
      unsuccessfully (its message names the command and the status). */
  datatype Error = Io(cause: IoError) | NonZeroExit(command: string, status: ExitStatus)

  /** Where a child's output stream goes. */
  datatype Stdio = Null | LogFile(path: string)

  /** The `Command` the helper hands to the OS. */
  datatype Command = Command(program: string, args: seq<string>, stdout: Stdio, stderr: Stdio)

  /** What the OS answers to the steps of one spawn: creating the log
      file, cloning its handle, and launching the process. */
  datatype Os = Os(create: Outcome<IoError>, clone: Outcome<IoError>, launch: Result<ProcId, IoError>)

  /** One spawn: the command handed to the OS to launch, if the spawn got
      that far, and the result (the new process or the first error met). */
  datatype SpawnRun = SpawnRun(attempted: Option<Command>, result: Result<ProcId, IoError>)

  /** One step of teardown: which kept entry was killed and how it went. */
  datatype KillAttempt = KillAttempt(command: string, pid: ProcId, outcome: Outcome<IoError>)

  /** The directory that holds the log files. */
  const LogDir: string := "/tmp/"

  /** A command line the helper can spawn: one with at least one token
      (for a blank one the source indexes an empty token list and panics). */
  predicate HasProgram(cmd: string) {
    Split(cmd) != []
  }

  /** The program: the first whitespace-separated token. */
  function Program(cmd: string): string
    requires HasProgram(cmd)
  {
    Split(cmd)[0]
  }

  /** The log file: the first token, under the log directory. */
  function LogPath(cmd: string): string
    requires HasProgram(cmd)
  {
    LogDir + Program(cmd)
  }

  /** The command launched for `cmd`: with arguments, both streams go to
      the log file; a bare program has both streams discarded. */
  function Plan(cmd: string): (c: Command)
    requires HasProgram(cmd)
    ensures [c.program] + c.args == Split(cmd)
    ensures IsToken(c.program) && AllTokens(c.args)
    ensures c.stdout == c.stderr
    ensures c.stdout.LogFile? <==> c.args != []
    ensures c.stdout.LogFile? ==> c.stdout.path == LogPath(cmd)
  {
    var parts := Split(cmd);
    assert parts == [parts[0]] + parts[1..];
    if |parts| > 1 then
      Command(parts[0], parts[1..], LogFile(LogPath(cmd)), LogFile(LogPath(cmd)))
    else
      Command(parts[0], [], Null, Null)
  }

  /** The command line a launched command corresponds to. */
  function Render(c: Command): string {
    Join([c.program] + c.args)
  }

  /** Round trip: any program and arguments, written out as a command
      line, are planned back to exactly that program and those arguments,
      logging exactly when there are arguments. */
  lemma PlanRender(c: Command)
    requires IsToken(c.program) && AllTokens(c.args)
    ensures HasProgram(Render(c))
    ensures Plan(Render(c)).program == c.program
    ensures Plan(Render(c)).args == c.args
    ensures Plan(Render(c)).stdout.LogFile? <==> c.args != []
  {
    SplitJoin([c.program] + c.args);
  }

  /** The amount and kind of whitespace between tokens does not matter:
      a command line and its single-spaced form launch the same command
      with the same log file. */
  lemma PlanIgnoresSpacing(cmd: string)
    requires HasProgram(cmd)
    ensures HasProgram(Join(Split(cmd)))
    ensures Plan(Join(Split(cmd))) == Plan(cmd)
    ensures LogPath(Join(Split(cmd))) == LogPath(cmd)
  {
    SplitNormalizes(cmd);
  }

  /** Two command lines get equal log-path strings exactly when their
      first tokens are equal. Paths are compared as strings: `.`, `//` and
      symbolic links are not resolved. */
  lemma LogPathPerProgram(a: string, b: string)
    requires HasProgram(a) && HasProgram(b)
    ensures LogPath(a) == LogPath(b) <==> Program(a) == Program(b)
  {
    if LogPath(a) == LogPath(b) {
      assert Program(a) == LogPath(a)[|LogDir|..];
      assert Program(b) == LogPath(b)[|LogDir|..];
    }
  }

  /** A bare program never clones the log file's handle, so its spawn
      does not depend on what the OS would answer to a clone. */
  lemma BareProgramIgnoresClone(cmd: string, os: Os, clone: Outcome<IoError>)
    requires HasProgram(cmd) && |Split(cmd)| == 1
    ensures SpawnHelper.Spawn(cmd, os.(clone := clone)) == SpawnHelper.Spawn(cmd, os)
  {
  }

  /** A one-shot command succeeds only if its log file was created, the
      planned command was launched successfully, and the process exited
      with code 0. */
  lemma SpawnShortSuccessMeansLaunched(cmd: string, os: Os, wait: Result<ExitStatus, IoError>)
    requires HasProgram(cmd)
    requires SpawnHelper.SpawnShort(cmd, os, wait).Success?
    ensures os.create.Pass? && os.launch.Success?
    ensures SpawnHelper.Spawn(cmd, os).attempted == Some(Plan(cmd))
    ensures wait == Success(Exited(0))
  {
  }

  /** What `spawn_long` leaves in the kept list, given what its spawn
      returned: the new entry appended on success, the list as it was on
      failure. */
  ghost function Retain(procs: seq<(string, ProcId)>, cmd: string, spawned: Result<ProcId, IoError>): seq<(string, ProcId)> {
    match spawned
    case Success(pid) => procs + [(cmd, pid)]
    case Failure(_) => procs
  }

  /** The kept list after a series of `spawn_long` calls, in call order;
      `spawned[i]` is what the spawn of `cmds[i]` returned. */
  ghost function AfterSpawns(procs: seq<(string, ProcId)>, cmds: seq<string>, spawned: seq<Result<ProcId, IoError>>): seq<(string, ProcId)>
    requires |cmds| == |spawned|
    decreases |cmds|
  {
    if cmds == [] then procs
    else AfterSpawns(Retain(procs, cmds[0], spawned[0]), cmds[1..], spawned[1..])
  }

  /** Reference definition: the successful spawns of a series of calls,
      each with the process it started, in call order. */
  ghost function Started(cmds: seq<string>, spawned: seq<Result<ProcId, IoError>>): seq<(string, ProcId)>
    requires |cmds| == |spawned|
    decreases |cmds|
  {
    if cmds == [] then []
    else
      (if spawned[0].Success? then [(cmds[0], spawned[0].value)] else [])
      + Started(cmds[1..], spawned[1..])
  }

  /** Over any series of `spawn_long` calls, the entries already kept
      stay, in place, and what is added is exactly the successful spawns
      in the order they were made: no failed spawn leaves an entry and no
      successful one is lost. */
  lemma {:induction false} AfterSpawnsKeepsStarted(procs: seq<(string, ProcId)>, cmds: seq<string>, spawned: seq<Result<ProcId, IoError>>)
    requires |cmds| == |spawned|
    ensures AfterSpawns(procs, cmds, spawned) == procs + Started(cmds, spawned)
    decreases |cmds|
  {
    if cmds != [] {
      var head := if spawned[0].Success? then [(cmds[0], spawned[0].value)] else [];
      var tail := Started(cmds[1..], spawned[1..]);
      assert Retain(procs, cmds[0], spawned[0]) == procs + head;
      assert Started(cmds, spawned) == head + tail;
      AfterSpawnsKeepsStarted(procs + head, cmds[1..], spawned[1..]);
      assert (procs + head) + tail == procs + (head + tail);
    } else {
      assert procs + [] == procs;
    }
  }

  /** Every entry a series of calls adds names a command of the series
      whose spawn succeeded with exactly that process. */
  lemma {:induction false} StartedAreSuccesses(cmds: seq<string>, spawned: seq<Result<ProcId, IoError>>, k: nat)
    requires |cmds| == |spawned|
    requires k < |Started(cmds, spawned)|
    ensures exists i :: 0 <= i < |cmds| && Started(cmds, spawned)[k].0 == cmds[i]
                        && spawned[i] == Success(Started(cmds, spawned)[k].1)
    decreases |cmds|
  {
    var tail := Started(cmds[1..], spawned[1..]);
    if spawned[0].Success? && k == 0 {
      assert Started(cmds, spawned)[0] == (cmds[0], spawned[0].value);
    } else {
      var k' := if spawned[0].Success? then k - 1 else k;
      assert Started(cmds, spawned)[k] == tail[k'];
      StartedAreSuccesses(cmds[1..], spawned[1..], k');
      var i :| 0 <= i < |cmds[1..]| && tail[k'].0 == cmds[1..][i] && spawned[1..][i] == Success(tail[k'].1);
      assert cmds[1..][i] == cmds[i + 1] && spawned[1..][i] == spawned[i + 1];
    }
  }

  /** The supervisor: the long-running processes it keeps, each with the
      command line that started it, in the order they were spawned. */
  class SpawnHelper {
    var procs: seq<(string, ProcId)>

    /** `new`: nothing is kept yet. */
    constructor ()
      ensures procs == []
    {
      procs := [];
    }

    /** `spawn`: create (truncate) the log file named after the program,
        then launch the program. With arguments, the log file's handle is
        cloned so that stdout and stderr both go to it; without, both
        streams are discarded. The first step that fails ends the spawn
        with its error. */
    static function Spawn(cmd: string, os: Os): (run: SpawnRun)
      requires HasProgram(cmd)
      ensures os.create.Fail? ==> run == SpawnRun(None, Failure(os.create.error))
      ensures run.attempted.Some? <==> os.create.Pass? && (Plan(cmd).args != [] ==> os.clone.Pass?)
      ensures run.attempted.Some? ==> run.attempted.value == Plan(cmd) && run.result == os.launch
      ensures run.attempted.None? && os.create.Pass? ==> run.result == Failure(os.clone.error)
    {
      match os.create
      case Fail(e) => SpawnRun(None, Failure(e))
      case Pass =>
        if |Split(cmd)| > 1 then
          match os.clone
          case Fail(e) => SpawnRun(None, Failure(e))
          case Pass => SpawnRun(Some(Plan(cmd)), os.launch)
        else
          SpawnRun(Some(Plan(cmd)), os.launch)
    }

    /** `spawn_short`: spawn, wait, and succeed only if the process exited
        successfully. A spawn or wait error is passed on; an unsuccessful
        exit is reported with the command and its status. Being a static
        function it reads no helper, so it cannot change any kept list. */
    static function SpawnShort(cmd: string, os: Os, wait: Result<ExitStatus, IoError>): (r: Result<(), Error>)
      requires HasProgram(cmd)
      ensures r.Success? <==> Spawn(cmd, os).result.Success? && wait.Success? && wait.value.Success()
      ensures Spawn(cmd, os).result.Failure? ==> r == Failure(Io(Spawn(cmd, os).result.error))
      ensures Spawn(cmd, os).result.Success? && wait.Failure? ==> r == Failure(Io(wait.error))
      ensures Spawn(cmd, os).result.Success? && wait.Success? && !wait.value.Success() ==>
                r == Failure(NonZeroExit(cmd, wait.value))
    {
      match Spawn(cmd, os).result
      case Failure(e) => Failure(Io(e))
      case Success(_) =>
        match wait
        case Failure(e) => Failure(Io(e))
        case Success(status) =>
          if status.Success() then Success(()) else Failure(NonZeroExit(cmd, status))
    }

    /** `spawn_long`: spawn without waiting. On success the command and
        its process are appended to the kept list; on failure the error is
        returned and the list is unchanged. */
    method SpawnLong(cmd: string, os: Os) returns (r: Result<(), Error>)
      requires HasProgram(cmd)
      modifies this
      ensures procs == Retain(old(procs), cmd, Spawn(cmd, os).result)
      ensures r.Success? <==> Spawn(cmd, os).result.Success?
      ensures r.Success? ==> procs == old(procs) + [(cmd, Spawn(cmd, os).result.value)]
      ensures r.Failure? ==> procs == old(procs) && r.error == Io(Spawn(cmd, os).result.error)
    {
      var run := Spawn(cmd, os);
      match run.result
      case Success(pid) =>
        procs := procs + [(cmd, pid)];
        r := Success(());
      case Failure(e) =>
        r := Failure(Io(e));
    }

    /** `drop`: try to kill every kept process once, in the order they
        were kept. `kills[i]` is the OS's answer to the i-th kill; a
        failed kill is only logged, and the loop goes on with the next. */
    method Teardown(kills: seq<Outcome<IoError>>) returns (trace: seq<KillAttempt>)
      requires |kills| == |procs|
      ensures |trace| == |procs|
      ensures forall i :: 0 <= i < |procs| ==> trace[i] == KillAttempt(procs[i].0, procs[i].1, kills[i])
    {
      trace := [];
      for i := 0 to |procs|
        invariant |trace| == i
        invariant forall j :: 0 <= j < i ==> trace[j] == KillAttempt(procs[j].0, procs[j].1, kills[j])
      {
        var (cmd, pid) := procs[i];
        trace := trace + [KillAttempt(cmd, pid, kills[i])];
      }
    }
  }
}
