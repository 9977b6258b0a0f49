# SpawnHelper: a verified model

This project models `SpawnHelper`, the process supervisor of a desktop
session bootstrapper written in Rust on top of the penrose window
manager. The helper does three things:

- **One-shot runs** (`spawn_short`). It starts a setup command, waits for
  it, and succeeds only when the command exits successfully.
- **Kept background processes** (`spawn_long`). It starts a daemon, such
  as a compositor, and keeps it with its command line in a list.
- **Teardown** (`Drop`). It tries to kill every kept process once, in
  order. A kill that fails is logged and then ignored.

Both spawns share one private routine, `spawn`. It splits the command line
on whitespace and takes the first token as the program. It creates a log
file at `/tmp/` followed by that token. A command with arguments sends
stdout and stderr to the log file. A bare program has both streams
discarded.

The model works on values: strings are `seq<char>` and process ids are a
32-bit newtype. The operating system is replaced by outcomes the caller
passes in:

- `Os`: the result of creating the log file, of cloning its handle, and
  of launching the process;
- the result of `wait`;
- one kill outcome per kept process.

Files:

- `wrappers.dfy`: `Option`, `Result` and `Outcome`.
- `whitespace.dfy`: Rust's `str::split_whitespace` on Unicode
  White_Space, with its round trip and its no-text-lost lemmas.
- `supervisor.dfy`: the command plan, the log path, and the class
  `SpawnHelper`. The list is a `seq` field. `spawn` and `spawn_short` are
  static functions, `spawn_long` is a method that changes the list, and
  `Drop` is the method `Teardown` with a loop. Lemmas about a series of
  `spawn_long` calls come just before the class.

Behaviour the code has that a reader might not expect (the model follows
the code):

- The log file is named after the whole first token, not its base name.
  A first token `/usr/bin/picom` gives the log path `/tmp//usr/bin/picom`.
  `File::create` does not create the missing directory `/tmp/usr/bin`, so
  such a spawn normally fails before anything is launched (in the model,
  `os.create` is `Fail`). Without arguments nothing would be written
  there anyway.
- A command without arguments does not log. The log file is still
  created (truncated), but both streams go to the null device.
- `spawn_long` returns `()`, not a process id. The process is reachable
  only through the kept list.

## Model

| member | source | states |
|---|---|---|
| `Whitespace.Split` | src/lib.rs:57 | every token of a command line is non-empty and free of whitespace |
| `Whitespace.SplitJoin` | src/lib.rs:57 | splitting space-joined tokens gives back the same tokens in the same order |
| `Whitespace.SplitKeepsText` | src/lib.rs:57 | the tokens, concatenated, are the input with its whitespace removed: no character is lost or reordered |
| `Whitespace.SplitEmptyIffBlank` | src/lib.rs:57-58 | a command line has no token, so `parts[0]` does not exist, exactly when it is empty or all whitespace |
| `Whitespace.SplitFirstToken` | src/lib.rs:57 | a whole run of non-whitespace characters followed by whitespace or the end is split off as one token: tokens are maximal runs, never cut inside |
| `Whitespace.SplitSkipsLeadingWhitespace` | src/lib.rs:57 | whitespace in front of a command line does not change its tokens |
| `Whitespace.SplitNormalizes` | src/lib.rs:57 | re-spacing a command line with single spaces keeps its tokens |
| `Supervisor.Plan` | src/lib.rs:57-72 | the program followed by the arguments is the token list; both streams go to the same place, which is the log file `/tmp/<program>` exactly when there are arguments and the null device otherwise |
| `Supervisor.PlanRender` | src/lib.rs:57-72 | any program and arguments, written as a command line, are planned back to that program and those arguments, and log exactly when there are arguments |
| `Supervisor.PlanIgnoresSpacing` | src/lib.rs:57-58 | a command line and its single-spaced form launch the same command with the same log file |
| `Supervisor.LogPathPerProgram` | src/lib.rs:58-59 | two command lines get equal log-path strings exactly when their first tokens are equal |
| `Supervisor.BareProgramIgnoresClone` | src/lib.rs:61-72 | the spawn of a command without arguments does not depend on the outcome of a handle clone, because none is made |
| `Supervisor.SpawnShortSuccessMeansLaunched` | src/lib.rs:27-39 | a one-shot command succeeds only if its log file was created, the planned command was launched successfully, and the process exited with code 0 |
| `Supervisor.SpawnHelper.constructor` | src/lib.rs:23-25 | a new helper keeps no process |
| `Supervisor.SpawnHelper.Spawn` | src/lib.rs:56-73 | a failed log-file creation ends the spawn with that error before anything is launched; the planned command is handed to the OS exactly when creation and, with arguments, the handle clone succeed; the result is then the launch result; a failed clone gives its error |
| `Supervisor.SpawnHelper.SpawnShort` | src/lib.rs:27-39 | success exactly when the spawn succeeded and the waited-for status is success; a spawn or wait error is passed on; an unsuccessful exit gives an error carrying the command and the status |
| `Supervisor.SpawnHelper.SpawnLong` | src/lib.rs:41-54 | on a successful spawn exactly one entry (command, process) is appended and earlier entries are unchanged; on a failed spawn, including a failed log-file creation, the I/O error is returned and the list is unchanged |
| `Supervisor.SpawnHelper.Teardown` | src/lib.rs:76-94 | one kill attempt per kept entry, in order, each with its own outcome; a failed kill neither stops the loop nor is returned as an error |
| `Supervisor.AfterSpawnsKeepsStarted` | src/lib.rs:41-54 | over any series of `spawn_long` calls, given what each spawn returned, the kept list is the old list followed by exactly the successful spawns, in call order |
| `Supervisor.StartedAreSuccesses` | src/lib.rs:42-52 | every entry a series of `spawn_long` calls adds names one of its commands whose spawn succeeded with exactly that process |

## Left out

- `Supervisor.SpawnHelper.Spawn`: the panic on a blank command line is not
  modelled. `spawn` indexes the first token of an empty token list and
  panics; the model excludes that case with the precondition
  `HasProgram(cmd)` on `Plan`, `Spawn`, `SpawnShort` and `SpawnLong`.
- `Supervisor.LogPathPerProgram`: paths are compared as strings. `.`, `//`
  and symbolic links are not resolved, so different first tokens can still
  share a log file (`feh` and `./feh` both open `/tmp/feh`).

- Logging through `info!` and `error!`. It changes no state. A
  `KillAttempt` records whether teardown logged a shutdown or a failure.
- Real OS effects: creating the file, `try_clone`, launching, `wait`,
  `kill` and `id()`. Each is an outcome passed in. Nothing is written to
  the log file.
- `SpawnShort`: the message text of the custom error is not modelled.
  The error carries its two parts, the command and the exit status.
- `Teardown`: the model does not capture that Rust runs `Drop` once,
  when the helper goes out of scope. `Teardown` is an explicit method and
  leaves the list as it is. The state a `Child` handle holds, such as
  being reaped, is not modelled; a kept process is its id.
- The key-binding registry near the end of src/lib.rs. It is commented
  out and not compiled.
- src/main.rs: layout tables, colours, key chords and the event loop are
  configuration. It also uses a `ProcessHolder` from another crate, not
  this `SpawnHelper`. src/main.rs is not part of this model.
- Concurrency: the code has none.
