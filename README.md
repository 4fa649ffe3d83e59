# Concord sidecar supervisor, modelled in Dafny

Concord's desktop backend (`src-tauri/src/lib.rs`) runs one Node.js "sidecar" worker. This worker runs the peer-to-peer engine. The backend owns the worker through two process-wide slots: `SIDECAR_STDIN` holds the worker's input pipe and `SIDECAR_CHILD` holds its process handle. It writes one JSON command per line to the worker. A reader thread relays every non-blank line the worker prints to the front end as a `p2p-event` and skips blank lines. The thread ends with an exit event. The worker's standard error goes to a per-instance log file, `sidecar-<pid>.log`, in the Concord data directory.

This project models that core:

- `Sidecar`: the supervisor.
  - `State` is the two slots plus a record of what the OS did: workers spawned, workers killed and waited for, lines delivered to input pipes, and relay threads started.
  - `AfterStop`, `WriteResult`/`AfterWrite` and `StartResult`/`AfterStart` define `kill_sidecar`, `write_to_sidecar` and `start_sidecar` on that state.
  - The `Supervisor` class holds the slots as fields. Its methods update them in place and are proved equal to those functions.
  - `Prepare` is everything `start_sidecar` resolves before it spawns: the data directory, the executable's directory, the script, the project root, `node`, and the log path and file.
- `EventRelay`: the stdout reader loop.
  - `RelayLines` is the loop itself, with `continue` on blank lines and `break` on a read error.
  - `RelayEvents` is an independent definition of the whole event stream: the events of the lines before the first failure, then at most one read-error event, then the exit event. `RelayLines` is proved to produce exactly that stream.
- `Paths`: the upward search for `scripts/p2p-sidecar.js` and the project root derived from it.
- `Diagnostics`: `app_data_dir`, the log file name and path, and `get_sidecar_log`.
- `Wire`: JSON values, the two commands and their objects, and the synthesised `log` and `error` events.

Everything the code asks of its environment is a parameter:

- the OS calls, gathered in `Host`: `APPDATA`, directory and file creation, `current_exe`, file existence, path display, `which("node")`, the process id, and spawning;
- serde_json parsing and serialization (`parse`, `serialize`);
- `char::is_whitespace` (`isSpace`);
- `fs::read_to_string` (`read`);
- the outcomes of writing to and flushing the pipe (`PipeIo`).

A worker is named by its spawn ordinal, so a name is never reused.

The model follows the code, in particular:

- The script search is only the walk up the ancestors of the executable's directory. There is no bundled-script check and no bundled interpreter; the interpreter is `which("node")`.
- The send command has exactly `cmd`, `channelId` and `data`. There is no `targetPeerId`.
- A line that is not JSON is logged with its trimmed text, not the raw line.
- If spawning succeeds but a pipe cannot be taken ("No stdin pipe" / "No stdout pipe"), the code drops the child without killing it. That worker is then neither held nor killed (`MissingPipeLeavesWorkerRunning`). So "at most one worker alive" (`AtMostOneWorkerAlive`) holds only when both pipes are captured. The code requests both streams with `Stdio::piped()`, so this branch is not expected to occur.

## Model

| member | source | states |
|---|---|---|
| `Wire.Encode` | src-tauri/src/lib.rs:190-205 | a send is an object with exactly the keys cmd="send", channelId, data; a dial exactly cmd="dial", address; never a targetPeerId key; channelId, data and address carry the command's arguments |
| `Wire.Decode` | src-tauri/src/lib.rs:190-205 | reading a command object back: whatever it accepts is exactly the object of the command it returns |
| `Wire.DecodeEncode` | src-tauri/src/lib.rs:190-205 | every command is recovered from its wire object |
| `Wire.EncodeInjective` | src-tauri/src/lib.rs:190-205 | different commands are written as different objects |
| `Wire.Event` | src-tauri/src/lib.rs:152-170 | a synthesised event has exactly the keys type and message, with the given values |
| `Wire.ExitEventIsDistinct` | src-tauri/src/lib.rs:152-170 | the exit event differs from every log event and every "stdout read error: …" event |
| `Paths.Parent` | src-tauri/src/lib.rs:96-98 | the root has no parent; otherwise the parent is the path minus its last component |
| `Paths.Join` | src-tauri/src/lib.rs:83 | dir.join(name) has parent dir and last component name |
| `Paths.NoScriptAboveParent` | src-tauri/src/lib.rs:80-89 | moving the search one level up keeps "no longer ancestor holds the script" |
| `Paths.FoundAtStart` | src-tauri/src/lib.rs:82-86 | when the directory itself holds the script, it is the first ancestor to do so |
| `Paths.FoundFromParent` | src-tauri/src/lib.rs:80-89 | when the directory does not hold the script, the search of the directory ends where the search of its parent ends |
| `Paths.FindScript` | src-tauri/src/lib.rs:80-89 | the result is d/scripts/p2p-sidecar.js for an ancestor d of the exe directory (itself included) that holds it, no longer ancestor holding it; none exactly when no ancestor holds it |
| `Paths.ProjectRoot` | src-tauri/src/lib.rs:96-100 | parent().and_then(parent): the directory two levels up, none when there is none; its use on a found script is stated by ProjectRootIsScriptHome |
| `Paths.FirstScriptHomeUnique` | src-tauri/src/lib.rs:80-89 | the first ancestor holding the script is unique |
| `Paths.ProjectRootIsScriptHome` | src-tauri/src/lib.rs:96-100 | the project root of a found script always exists (the "invalid sidecar script path" error cannot occur) and is the first ancestor holding the script |
| `Diagnostics.AppDataDir` | src-tauri/src/lib.rs:25-30 | Ok exactly when APPDATA is set and the directory could be created; then it is APPDATA/Concord; otherwise "APPDATA not set" or the creation error |
| `Diagnostics.DigitChar` | src-tauri/src/lib.rs:34 | a digit below ten is the character with that digit value |
| `Diagnostics.Decimal` | src-tauri/src/lib.rs:34 | the pid's text is a non-empty string of decimal digits with no leading zero |
| `Diagnostics.DecimalRoundTrip` | src-tauri/src/lib.rs:34 | the pid's decimal text denotes the pid |
| `Diagnostics.LogFileName` | src-tauri/src/lib.rs:33-34 | the name is "sidecar-", the pid's decimal text, ".log" |
| `Diagnostics.LogFileNameInjective` | src-tauri/src/lib.rs:33-34 | different pids give different log file names |
| `Diagnostics.LogPath` | src-tauri/src/lib.rs:32-35 | fails exactly when the data directory fails, with its error; otherwise the file is that name directly inside the data directory |
| `Diagnostics.LogPathsDistinct` | src-tauri/src/lib.rs:32-35 | two host processes with different pids never share a log file |
| `Diagnostics.ReadLog` | src-tauri/src/lib.rs:208-215 | errors exactly when the data directory fails, with its error; a log that cannot be read gives ""; a readable log gives its full contents |
| `EventRelay.TrimStartIndex` | src-tauri/src/lib.rs:143 | everything before the index is whitespace and the character at it is not |
| `EventRelay.TrimEndIndex` | src-tauri/src/lib.rs:143 | everything from the index on is whitespace and the character before it is not |
| `EventRelay.Trim` | src-tauri/src/lib.rs:143 | str::trim: the line between its leading and trailing whitespace; its properties are stated by TrimSpec and TrimIdempotent |
| `EventRelay.TrimSpec` | src-tauri/src/lib.rs:143-146 | the trimmed text is empty exactly when the line is all whitespace, starts and ends with non-whitespace, and is the line itself when the line has no whitespace at its ends |
| `EventRelay.TrimIdempotent` | src-tauri/src/lib.rs:143 | trimming twice is trimming once |
| `EventRelay.LineEvents` | src-tauri/src/lib.rs:142-157 | a read line yields no event exactly when it is all whitespace, otherwise one: the parsed JSON of the trimmed text, or a log event carrying the trimmed text |
| `EventRelay.FirstFailure` | src-tauri/src/lib.rs:159-165 | every read before the index succeeded and the read at it failed |
| `EventRelay.TextsBeforeFailure` | src-tauri/src/lib.rs:140-142 | the texts of exactly the lines read before the first failure, in order |
| `EventRelay.Forwarded` | src-tauri/src/lib.rs:140-157 | the events of a run of read lines, each line's LineEvents in reading order |
| `EventRelay.Consumed` | src-tauri/src/lib.rs:140-165 | the loop takes the reads up to and including the first failure, or all of them |
| `EventRelay.RelayEvents` | src-tauri/src/lib.rs:138-171 | the reference event stream of one relay run: the forwarded lines before the first failure, one read-error event if a read failed, then the exit event; RelayLines is proved equal to it |
| `EventRelay.ForwardedSnoc` | src-tauri/src/lib.rs:140-157 | one more line adds exactly that line's events at the end |
| `EventRelay.ForwardedAppend` | src-tauri/src/lib.rs:140-157 | the events of two runs of lines are the concatenation of each run's events |
| `EventRelay.ForwardedLength` | src-tauri/src/lib.rs:142-157 | a run of lines yields one event per non-blank line |
| `EventRelay.RelayEventCount` | src-tauri/src/lib.rs:138-171 | events = non-blank lines before the first failure + 1 if a read failed + 1 |
| `EventRelay.RelayEndsWithExit` | src-tauri/src/lib.rs:159-171 | the last event is always the exit event, and a failed read's error event comes just before it |
| `EventRelay.FirstFailureOfPrefix` | src-tauri/src/lib.rs:159-165 | cutting the input after the first failure keeps the first failure in place |
| `EventRelay.RelayStopsAtFailure` | src-tauri/src/lib.rs:159-165 | the events depend only on the reads up to and including the first failure |
| `EventRelay.NoExitForwarded` | src-tauri/src/lib.rs:147-157 | when no trimmed line parses as the exit event, no forwarded event is the exit event |
| `EventRelay.ExitEventOnlyLast` | src-tauri/src/lib.rs:168-171 | if no line read before the first failure parses as the exit event, the exit event is emitted exactly once, as the last event |
| `EventRelay.NonJsonLineIsLogged` | src-tauri/src/lib.rs:151-156 | a non-JSON line such as "hello world" yields exactly {"type":"log","message":line} and then the exit event |
| `EventRelay.RelayLines` | src-tauri/src/lib.rs:138-172 | the loop emits exactly RelayEvents of its input and consumes exactly the reads up to and including the first failure |
| `Sidecar.ExeDir` | src-tauri/src/lib.rs:78-79 | Ok exactly when current_exe succeeded with a path that has a parent, which is the result; a current_exe error is returned unchanged; a path without a parent gives "no exe parent" |
| `Sidecar.ScriptNotFound` | src-tauri/src/lib.rs:90-95 | the not-found message contains the displayed start directory |
| `Sidecar.Prepare` | src-tauri/src/lib.rs:68-111 | Ok exactly when the data directory, the exe directory, the script, node and the log file are all available; otherwise the error of the first step that fails, in source order (data-directory error, current_exe error or "no exe parent", the not-found message naming the exe directory, the Node.js message, "Cannot create sidecar log: " plus the error); a resolved launch uses node, the script under the first ancestor holding it, that ancestor as working directory, the data directory and the pid's log path |
| `Sidecar.MissingScriptFailsPrepare` | src-tauri/src/lib.rs:90-95 | with no script in any ancestor, preparation fails with the message naming the exe directory |
| `Sidecar.AfterStop` | src-tauri/src/lib.rs:37-48 | kill_sidecar on the state: both slots emptied, the held worker (if any) added to the killed-and-waited record; its properties are stated by StopEmptiesSlots and StopIdempotent |
| `Sidecar.StopEmptiesSlots` | src-tauri/src/lib.rs:37-48 | stop empties both slots, kills and waits for exactly the held worker if any, and leaves the spawn count, the deliveries and the relays unchanged |
| `Sidecar.StopIdempotent` | src-tauri/src/lib.rs:37-48 | stopping twice is stopping once |
| `Sidecar.WriteResult` | src-tauri/src/lib.rs:50-64 | write_to_sidecar's result: the serializer error, then "Sidecar not running", then "Write to sidecar: " or "Flush sidecar: " plus the I/O error, else Ok |
| `Sidecar.AfterWrite` | src-tauri/src/lib.rs:50-64 | write_to_sidecar's effect: one line, the serialized command plus "\n", delivered to the held worker when serialization and the write succeed; nothing otherwise |
| `Sidecar.WriteWithoutWorker` | src-tauri/src/lib.rs:50-64 | with the stdin slot empty a write fails, delivers nothing, and fails with "Sidecar not running" once the command serializes |
| `Sidecar.WriteDeliversOneLine` | src-tauri/src/lib.rs:55-60 | a write changes no slot and delivers at most one line, to the held worker; a successful write delivered exactly the serialized command plus "\n" |
| `Sidecar.WritesKeepOrder` | src-tauri/src/lib.rs:50-64 | two successful writes reach the worker in submission order |
| `Sidecar.StartResult` | src-tauri/src/lib.rs:68-126 | start_sidecar's result: Prepare's error, "Failed to spawn sidecar: " plus the spawn error, "No stdin pipe", "No stdout pipe", else Ok |
| `Sidecar.AfterStart` | src-tauri/src/lib.rs:68-137 | start_sidecar's effect: stop, then count a spawned process, then fill both slots with it and start its relay only when both pipes were taken |
| `Sidecar.StartStopsFirst` | src-tauri/src/lib.rs:68-69 | start retires exactly what stop retires and writes nothing |
| `Sidecar.FailedStartLeavesSlotsEmpty` | src-tauri/src/lib.rs:68-134 | a failed start leaves both slots empty and starts no relay |
| `Sidecar.SuccessfulStartFillsSlots` | src-tauri/src/lib.rs:113-137 | a successful start spawned one new worker from the prepared launch with both pipes; both slots hold it and one relay is started for it |
| `Sidecar.MissingScriptSpawnsNothing` | src-tauri/src/lib.rs:80-95 | with no script in any ancestor, start fails with the message naming the exe directory and only the stop happened |
| `Sidecar.OperationsKeepConsistent` | src-tauri/src/lib.rs:20-21 | stop, write and start keep both slots holding the same worker or both empty |
| `Sidecar.AtMostOneWorkerAlive` | src-tauri/src/lib.rs:127-134 | if every spawned worker but the held one was killed, stop, write and start (with both pipes captured) keep it so |
| `Sidecar.MissingPipeLeavesWorkerRunning` | src-tauri/src/lib.rs:124-125 | when a pipe cannot be taken, start fails and the spawned worker is neither killed nor held |
| `Sidecar.Supervisor.constructor` | src-tauri/src/lib.rs:20-21 | both slots start empty and nothing has been spawned, killed or written |
| `Sidecar.Supervisor.Stop` | src-tauri/src/lib.rs:37-48 | the new state is AfterStop of the old one: both slots empty, the held worker killed |
| `Sidecar.Supervisor.Write` | src-tauri/src/lib.rs:50-64 | returns WriteResult and leaves AfterWrite of the old state |
| `Sidecar.Supervisor.SendMessage` | src-tauri/src/lib.rs:189-196 | exactly a write of the send object: same result, same new state |
| `Sidecar.Supervisor.DialPeer` | src-tauri/src/lib.rs:199-205 | exactly a write of the dial object: same result, same new state |
| `Sidecar.Supervisor.Start` | src-tauri/src/lib.rs:68-137 | returns StartResult and leaves AfterStart of the old state: stop first, then spawn, then fill stdin, then child, then start the relay |

## Left out

- Process spawning, killing and waiting are `Host.spawn` plus the `reaped` record. Nothing models the OS process itself, `CREATE_NO_WINDOW` or the `CONCORD_DATA_DIR` variable (beyond `LaunchSpec.dataDir`).
- Threads and the two `Mutex`es, including lock poisoning and the "Mutex poisoned" / "Mutex: …" errors. The model is sequential. Without poisoning, the moment when only the stdin slot is filled is not observable between operations. Interleaving of concurrent writes is also left out.
- Tauri `emit`, `Builder` and `run`. Emitting is appending to the relay's output. The "Sidecar start failed" event of the setup hook and the final `kill_sidecar` at exit (one more `Stop`) are not modelled separately.
- The relay thread runs in parallel with the supervisor. `RelayLines` models one run of it over the read results its worker produces. The link between a worker and its relay is only the `relays` record.
- serde_json serialization and parsing, and `which::which`, are parameters.
- `BufRead::lines` is modelled only through its items. Splitting the byte stream into lines, and invalid UTF-8 turning into a read error, are not modelled.
- `str::trim` uses an abstract whitespace predicate instead of Unicode's White_Space.
- Filesystem effects (the breadcrumb file, creating the data directory and the log file, reading the log) are outcomes passed in. `Prepare` reads the `APPDATA` outcome the same way at each of its three `app_data_dir` calls.
- Sidecar.Supervisor.Write: a failed write is modelled as writing nothing. A partial write before the error is not modelled.
- Diagnostics.Decimal: the pid is an unbounded natural number; Rust's `u32` bound is not modelled.
