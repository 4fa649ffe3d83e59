/**
 * The supervisor of the single worker process: the two process-wide slots
 * that hold the worker's input pipe and its process handle, and the
 * operations that stop the worker, write a command line to it, and
 * (re)start it.
 *
 * Everything start_sidecar asks of the operating system is a field of Host;
 * spawning yields only whether the process started and which pipes were
 * captured. A worker is named by its spawn ordinal, so names are fresh.
 */
module Sidecar {
  import opened Wrappers
  import opened Wire
  import opened Paths
  import Diagnostics

  /** A worker process, named by the order in which it was spawned. */
  type WorkerId = nat

  /**
   * What the worker is started with: the interpreter, the script it runs,
   * its working directory, the data directory it is told about and the log
   * file its standard error goes to.
   */
  datatype LaunchSpec = LaunchSpec(interpreter: Path, script: Path, workingDir: Path,
                                   dataDir: Path, logPath: Path)

  /** What spawning reports: a process, with or without each pipe captured, or the OS error. */
  datatype SpawnOutcome = Spawned(stdinPiped: bool, stdoutPiped: bool) | SpawnFailed(message: string)

  /**
   * The environment start_sidecar consults: the APPDATA variable and the
   * outcome of creating the data directory, current_exe, whether a file
   * exists, how a path is displayed, which("node"), the host's process id,
   * the outcome of creating the log file, and spawning.
   */
  datatype Host = Host(
    appData: Option<Path>,
    createDirError: Option<string>,
    currentExe: Result<Path>,
    scriptExists: Path -> bool,
    display: Path -> string,
    node: Option<Path>,
    pid: nat,
    logCreateError: Option<string>,
    spawn: LaunchSpec -> SpawnOutcome)

  const NoExeParent: string := "no exe parent"
  const InvalidScriptPath: string := "invalid sidecar script path"
  const NodeMissing: string := "Node.js not found. Install Node.js for P2P networking."
  const LogCreatePrefix: string := "Cannot create sidecar log: "
  const SpawnFailedPrefix: string := "Failed to spawn sidecar: "
  const NoStdinPipe: string := "No stdin pipe"
  const NoStdoutPipe: string := "No stdout pipe"
  const NotRunning: string := "Sidecar not running"
  const WritePrefix: string := "Write to sidecar: "
  const FlushPrefix: string := "Flush sidecar: "
  const NotFoundHead: string := "Sidecar script (scripts/p2p-sidecar.js) not found. Searched from "
  const NotFoundTail: string := " upward."

  /** The directory of the running executable. */
  function ExeDir(h: Host): (r: Result<Path>)
    ensures r.Ok? <==> h.currentExe.Ok? && h.currentExe.value != []
    ensures r.Ok? ==> Parent(h.currentExe.value) == Some(r.value)
    ensures h.currentExe.Ok? && h.currentExe.value == [] ==> r == Err(NoExeParent)
    ensures h.currentExe.Err? ==> r == Err(h.currentExe.error)
  {
    match h.currentExe
    case Err(e) => Err(e)
    case Ok(exe) =>
      match Parent(exe)
      case None => Err(NoExeParent)
      case Some(dir) => Ok(dir)
  }

  /** The error for a failed search; it shows the directory the search started from. */
  function ScriptNotFound(searchedFrom: string): (m: string)
    ensures |m| == |NotFoundHead| + |searchedFrom| + |NotFoundTail|
    ensures m[|NotFoundHead|..|NotFoundHead| + |searchedFrom|] == searchedFrom
  {
    NotFoundHead + searchedFrom + NotFoundTail
  }

  /**
   * Everything start_sidecar does before spawning, in the order it does it:
   * the data directory (for the breadcrumb file), the executable's
   * directory, the script search, the project root, the interpreter, the
   * log path and file, and the data directory again.
   */
  function Prepare(h: Host): (r: Result<LaunchSpec>)
    ensures r.Ok? <==> && Diagnostics.AppDataDir(h.appData, h.createDirError).Ok? && ExeDir(h).Ok?
                       && FindScript(ExeDir(h).value, h.scriptExists).Some?
                       && h.node.Some? && h.logCreateError.None?
    ensures Diagnostics.AppDataDir(h.appData, h.createDirError).Err? ==>
              r == Err(Diagnostics.AppDataDir(h.appData, h.createDirError).error)
    ensures Diagnostics.AppDataDir(h.appData, h.createDirError).Ok? && ExeDir(h).Err? ==>
              r == Err(ExeDir(h).error)
    ensures Diagnostics.AppDataDir(h.appData, h.createDirError).Ok? && ExeDir(h).Ok?
            && FindScript(ExeDir(h).value, h.scriptExists).None? ==>
              r == Err(ScriptNotFound(h.display(ExeDir(h).value)))
    ensures Diagnostics.AppDataDir(h.appData, h.createDirError).Ok? && ExeDir(h).Ok?
            && FindScript(ExeDir(h).value, h.scriptExists).Some? && h.node.None? ==>
              r == Err(NodeMissing)
    ensures Diagnostics.AppDataDir(h.appData, h.createDirError).Ok? && ExeDir(h).Ok?
            && FindScript(ExeDir(h).value, h.scriptExists).Some? && h.node.Some?
            && h.logCreateError.Some? ==>
              r == Err(LogCreatePrefix + h.logCreateError.value)
    ensures r.Ok? ==> ExeDir(h).Ok? && h.node.Some? && r.value.interpreter == h.node.value
    ensures r.Ok? ==> r.value.script == ScriptIn(r.value.workingDir)
                      && FirstScriptHome(ExeDir(h).value, r.value.workingDir, h.scriptExists)
    ensures r.Ok? ==> Diagnostics.AppDataDir(h.appData, h.createDirError) == Ok(r.value.dataDir)
                      && Diagnostics.LogPath(h.appData, h.createDirError, h.pid) == Ok(r.value.logPath)
                      && h.logCreateError.None?
  {
    match Diagnostics.AppDataDir(h.appData, h.createDirError)
    case Err(e) => Err(e)
    case Ok(_) =>
      match ExeDir(h)
      case Err(e) => Err(e)
      case Ok(exeDir) =>
        match FindScript(exeDir, h.scriptExists)
        case None => Err(ScriptNotFound(h.display(exeDir)))
        case Some(script) =>
          ProjectRootIsScriptHome(exeDir, h.scriptExists);
          match ProjectRoot(script)
          case None => Err(InvalidScriptPath)
          case Some(root) =>
            match h.node
            case None => Err(NodeMissing)
            case Some(node) =>
              match Diagnostics.LogPath(h.appData, h.createDirError, h.pid)
              case Err(e) => Err(e)
              case Ok(logPath) =>
                match h.logCreateError
                case Some(e) => Err(LogCreatePrefix + e)
                case None =>
                  match Diagnostics.AppDataDir(h.appData, h.createDirError)
                  case Err(e) => Err(e)
                  case Ok(dataDir) => Ok(LaunchSpec(node, script, root, dataDir, logPath))
  }

  /**
   * When no ancestor of the executable's directory holds the script, start
   * fails with the message that names that directory, before any interpreter
   * lookup, log file or spawn.
   */
  lemma MissingScriptFailsPrepare(h: Host)
    requires Diagnostics.AppDataDir(h.appData, h.createDirError).Ok? && ExeDir(h).Ok?
    requires forall j :: 0 <= j <= |ExeDir(h).value| ==> !h.scriptExists(ScriptIn(ExeDir(h).value[..j]))
    ensures Prepare(h) == Err(ScriptNotFound(h.display(ExeDir(h).value)))
  {
    var dir := ExeDir(h).value;
    assert dir[..0] == [];
    assert FindScript(dir, h.scriptExists).None?;
  }

  /** One line written to the input pipe of a worker. */
  datatype Delivery = Delivery(worker: WorkerId, bytes: string)

  /**
   * The supervisor's state: the stdin slot and the child slot (each the
   * worker whose pipe or handle it holds), how many workers were spawned,
   * the workers killed and waited for, the lines written to input pipes and
   * the workers a relay thread was started for, all in order.
   */
  datatype State = State(
    stdin: Option<WorkerId>,
    child: Option<WorkerId>,
    spawned: nat,
    reaped: seq<WorkerId>,
    delivered: seq<Delivery>,
    relays: seq<WorkerId>)

  /**
   * Between operations both slots hold the same worker or are both empty,
   * and only spawned workers are named.
   */
  ghost predicate Consistent(s: State)
  {
    && s.stdin == s.child
    && (s.child.Some? ==> s.child.value < s.spawned)
    && (forall i :: 0 <= i < |s.reaped| ==> s.reaped[i] < s.spawned)
  }

  /** Every spawned worker has been killed and waited for, except the one in the child slot. */
  ghost predicate NoOrphans(s: State)
  {
    forall w :: 0 <= w < s.spawned ==> w in s.reaped || s.child == Some(w)
  }

  /** kill_sidecar: drop the input pipe, kill and wait for the child if there is one, clear its slot. */
  function AfterStop(s: State): State
  {
    s.(stdin := None,
       child := None,
       reaped := s.reaped + (if s.child.Some? then [s.child.value] else []))
  }

  /** Stopping empties both slots and retires exactly the worker that was held, if any. */
  lemma StopEmptiesSlots(s: State)
    ensures AfterStop(s).stdin.None? && AfterStop(s).child.None?
    ensures s.child.None? ==> AfterStop(s) == s.(stdin := None)
    ensures s.child.Some? ==> AfterStop(s).reaped == s.reaped + [s.child.value]
    ensures AfterStop(s).delivered == s.delivered && AfterStop(s).spawned == s.spawned
            && AfterStop(s).relays == s.relays
  {
  }

  /** Stopping twice is stopping once. */
  lemma StopIdempotent(s: State)
    ensures AfterStop(AfterStop(s)) == AfterStop(s)
  {
  }

  /** The outcomes of the two I/O calls on the input pipe (none: the call succeeded). */
  datatype PipeIo = PipeIo(writeError: Option<string>, flushError: Option<string>)

  /**
   * What write_to_sidecar returns: the serializer's error, then "not
   * running" when the stdin slot is empty, then the write and flush errors.
   */
  function WriteResult(s: State, cmd: Json, serialize: Json -> Result<string>, io: PipeIo): Result<()>
  {
    match serialize(cmd)
    case Err(e) => Err(e)
    case Ok(_) =>
      if s.stdin.None? then Err(NotRunning)
      else if io.writeError.Some? then Err(WritePrefix + io.writeError.value)
      else if io.flushError.Some? then Err(FlushPrefix + io.flushError.value)
      else Ok(())
  }

  /** writeln! puts the serialized command and one newline on the held pipe once the write succeeds. */
  function AfterWrite(s: State, cmd: Json, serialize: Json -> Result<string>, io: PipeIo): State
  {
    if serialize(cmd).Ok? && s.stdin.Some? && io.writeError.None?
    then s.(delivered := s.delivered + [Delivery(s.stdin.value, serialize(cmd).value + "\n")])
    else s
  }

  /**
   * With no worker, a write fails and delivers nothing; once the command
   * serializes, the failure is exactly "Sidecar not running".
   */
  lemma WriteWithoutWorker(s: State, cmd: Json, serialize: Json -> Result<string>, io: PipeIo)
    requires s.stdin.None?
    ensures AfterWrite(s, cmd, serialize, io) == s
    ensures WriteResult(s, cmd, serialize, io).Err?
    ensures serialize(cmd).Ok? ==> WriteResult(s, cmd, serialize, io) == Err(NotRunning)
  {
  }

  /**
   * A write never touches the slots; it delivers at most one line, to the
   * worker in the stdin slot; and a successful write delivered exactly the
   * serialized command followed by one newline.
   */
  lemma WriteDeliversOneLine(s: State, cmd: Json, serialize: Json -> Result<string>, io: PipeIo)
    ensures var t := AfterWrite(s, cmd, serialize, io);
      && t.stdin == s.stdin && t.child == s.child && t.spawned == s.spawned
      && t.reaped == s.reaped && t.relays == s.relays
      && (t.delivered == s.delivered || t.delivered == s.delivered + [Delivery(s.stdin.value, serialize(cmd).value + "\n")])
    ensures WriteResult(s, cmd, serialize, io).Ok? ==>
      s.stdin.Some? && serialize(cmd).Ok?
      && AfterWrite(s, cmd, serialize, io).delivered == s.delivered + [Delivery(s.stdin.value, serialize(cmd).value + "\n")]
  {
  }

  /** Two successful writes reach the worker in the order they were made. */
  lemma WritesKeepOrder(s: State, c1: Json, c2: Json, serialize: Json -> Result<string>, io1: PipeIo, io2: PipeIo)
    requires WriteResult(s, c1, serialize, io1).Ok?
    requires WriteResult(AfterWrite(s, c1, serialize, io1), c2, serialize, io2).Ok?
    ensures AfterWrite(AfterWrite(s, c1, serialize, io1), c2, serialize, io2).delivered
         == s.delivered + [Delivery(s.stdin.value, serialize(c1).value + "\n"),
                           Delivery(s.stdin.value, serialize(c2).value + "\n")]
  {
  }

  /** What start_sidecar returns. */
  function StartResult(h: Host): Result<()>
  {
    match Prepare(h)
    case Err(e) => Err(e)
    case Ok(launch) =>
      match h.spawn(launch)
      case SpawnFailed(e) => Err(SpawnFailedPrefix + e)
      case Spawned(stdinPiped, stdoutPiped) =>
        if !stdinPiped then Err(NoStdinPipe)
        else if !stdoutPiped then Err(NoStdoutPipe)
        else Ok(())
  }

  /**
   * The state start_sidecar leaves: it stops first; a spawned process is
   * counted even when a pipe is then missing; the stdin slot, then the child
   * slot, is filled and a relay is started only when both pipes were taken.
   */
  function AfterStart(s: State, h: Host): State
  {
    var stopped := AfterStop(s);
    match Prepare(h)
    case Err(_) => stopped
    case Ok(launch) =>
      match h.spawn(launch)
      case SpawnFailed(_) => stopped
      case Spawned(stdinPiped, stdoutPiped) =>
        var w := stopped.spawned;
        var counted := stopped.(spawned := w + 1);
        if stdinPiped && stdoutPiped
        then counted.(stdin := Some(w), child := Some(w), relays := counted.relays + [w])
        else counted
  }

  /** Start retires the previous worker before anything else, and writes nothing. */
  lemma StartStopsFirst(s: State, h: Host)
    ensures AfterStart(s, h).reaped == AfterStop(s).reaped
    ensures AfterStart(s, h).delivered == s.delivered
  {
  }

  /** A start that fails leaves both slots empty and starts no relay. */
  lemma FailedStartLeavesSlotsEmpty(s: State, h: Host)
    requires StartResult(h).Err?
    ensures AfterStart(s, h).stdin.None? && AfterStart(s, h).child.None?
    ensures AfterStart(s, h).relays == s.relays
  {
  }

  /**
   * A start that succeeds has spawned one new worker from the resolved
   * launch spec and holds its input pipe and handle, with one relay
   * started for it.
   */
  lemma SuccessfulStartFillsSlots(s: State, h: Host)
    requires StartResult(h).Ok?
    ensures Prepare(h).Ok? && h.spawn(Prepare(h).value) == Spawned(true, true)
    ensures var t := AfterStart(s, h);
      t.stdin == Some(s.spawned) && t.child == Some(s.spawned)
      && t.spawned == s.spawned + 1 && t.relays == s.relays + [s.spawned]
  {
  }

  /**
   * With no script anywhere above the executable, start fails with the
   * message naming the executable's directory, and no worker is spawned.
   */
  lemma MissingScriptSpawnsNothing(s: State, h: Host)
    requires Diagnostics.AppDataDir(h.appData, h.createDirError).Ok? && ExeDir(h).Ok?
    requires forall j :: 0 <= j <= |ExeDir(h).value| ==> !h.scriptExists(ScriptIn(ExeDir(h).value[..j]))
    ensures StartResult(h) == Err(ScriptNotFound(h.display(ExeDir(h).value)))
    ensures AfterStart(s, h) == AfterStop(s)
  {
    MissingScriptFailsPrepare(h);
  }

  /** Stop, write and start keep the two slots paired. */
  lemma OperationsKeepConsistent(s: State, cmd: Json, serialize: Json -> Result<string>, io: PipeIo, h: Host)
    requires Consistent(s)
    ensures Consistent(AfterStop(s))
    ensures Consistent(AfterWrite(s, cmd, serialize, io))
    ensures Consistent(AfterStart(s, h))
  {
    var stopped := AfterStop(s);
    assert Consistent(stopped);
    var t := AfterStart(s, h);
    assert t == stopped || t.reaped == stopped.reaped;
  }

  /**
   * At most one worker is alive: if every earlier worker but the held one
   * was killed, the same holds after a start whose spawned process had both
   * pipes captured, and after a stop or a write.
   */
  lemma AtMostOneWorkerAlive(s: State, cmd: Json, serialize: Json -> Result<string>, io: PipeIo, h: Host)
    requires Consistent(s) && NoOrphans(s)
    requires Prepare(h).Ok? && h.spawn(Prepare(h).value).Spawned? ==>
               h.spawn(Prepare(h).value).stdinPiped && h.spawn(Prepare(h).value).stdoutPiped
    ensures NoOrphans(AfterStop(s))
    ensures NoOrphans(AfterWrite(s, cmd, serialize, io))
    ensures NoOrphans(AfterStart(s, h))
  {
    var t := AfterStop(s);
    forall w | 0 <= w < t.spawned
      ensures w in t.reaped
    {
      assert w in s.reaped || s.child == Some(w);
    }
  }

  /**
   * When the process starts but a pipe cannot be taken, start returns an
   * error while the process it spawned is neither killed nor held in a slot.
   */
  lemma MissingPipeLeavesWorkerRunning(s: State, h: Host)
    requires Consistent(s)
    requires Prepare(h).Ok? && h.spawn(Prepare(h).value).Spawned?
    requires !h.spawn(Prepare(h).value).stdinPiped || !h.spawn(Prepare(h).value).stdoutPiped
    ensures StartResult(h).Err?
    ensures !NoOrphans(AfterStart(s, h))
  {
    var t := AfterStart(s, h);
    assert s.spawned < t.spawned && s.spawned !in t.reaped && t.child.None?;
  }

  /**
   * The process-wide slots SIDECAR_STDIN and SIDECAR_CHILD, together with
   * what the operating system did on their behalf.
   */
  class Supervisor {
    var stdin: Option<WorkerId>
    var child: Option<WorkerId>
    var spawned: nat
    var reaped: seq<WorkerId>
    var delivered: seq<Delivery>
    var relays: seq<WorkerId>

    function Snapshot(): State
      reads this
    {
      State(stdin, child, spawned, reaped, delivered, relays)
    }

    ghost predicate Valid()
      reads this
    {
      Consistent(Snapshot())
    }

    /** Both slots start empty (Mutex::new(None)); nothing has run yet. */
    constructor ()
      ensures Valid() && NoOrphans(Snapshot())
      ensures Snapshot() == State(None, None, 0, [], [], [])
    {
      stdin := None;
      child := None;
      spawned := 0;
      reaped := [];
      delivered := [];
      relays := [];
    }

    /** kill_sidecar */
    method Stop()
      requires Valid()
      modifies this
      ensures Valid()
      ensures Snapshot() == AfterStop(old(Snapshot()))
    {
      stdin := None;
      if child.Some? {
        reaped := reaped + [child.value];
      }
      child := None;
    }

    /** write_to_sidecar */
    method Write(cmd: Json, serialize: Json -> Result<string>, io: PipeIo) returns (r: Result<()>)
      requires Valid()
      modifies this
      ensures Valid()
      ensures r == WriteResult(old(Snapshot()), cmd, serialize, io)
      ensures Snapshot() == AfterWrite(old(Snapshot()), cmd, serialize, io)
    {
      var encoded := serialize(cmd);
      if encoded.Err? {
        return Err(encoded.error);
      }
      if stdin.None? {
        return Err(NotRunning);
      }
      if io.writeError.Some? {
        return Err(WritePrefix + io.writeError.value);
      }
      delivered := delivered + [Delivery(stdin.value, encoded.value + "\n")];
      if io.flushError.Some? {
        return Err(FlushPrefix + io.flushError.value);
      }
      return Ok(());
    }

    /** p2p_send: write {"cmd":"send","channelId":..,"data":..}; its outcome is the write's. */
    method SendMessage(channelId: string, data: string, serialize: Json -> Result<string>, io: PipeIo)
      returns (r: Result<()>)
      requires Valid()
      modifies this
      ensures Valid()
      ensures r == WriteResult(old(Snapshot()), Encode(Command.Send(channelId, data)), serialize, io)
      ensures Snapshot() == AfterWrite(old(Snapshot()), Encode(Command.Send(channelId, data)), serialize, io)
    {
      r := Write(Encode(Command.Send(channelId, data)), serialize, io);
    }

    /** p2p_dial: write {"cmd":"dial","address":..}; its outcome is the write's. */
    method DialPeer(address: string, serialize: Json -> Result<string>, io: PipeIo) returns (r: Result<()>)
      requires Valid()
      modifies this
      ensures Valid()
      ensures r == WriteResult(old(Snapshot()), Encode(Command.Dial(address)), serialize, io)
      ensures Snapshot() == AfterWrite(old(Snapshot()), Encode(Command.Dial(address)), serialize, io)
    {
      r := Write(Encode(Command.Dial(address)), serialize, io);
    }

    /** start_sidecar, up to launching the relay thread. */
    method Start(h: Host) returns (r: Result<()>)
      requires Valid()
      modifies this
      ensures Valid()
      ensures r == StartResult(h)
      ensures Snapshot() == AfterStart(old(Snapshot()), h)
    {
      Stop();
      var launch := Prepare(h);
      if launch.Err? {
        return Err(launch.error);
      }
      match h.spawn(launch.value)
      case SpawnFailed(e) =>
        return Err(SpawnFailedPrefix + e);
      case Spawned(stdinPiped, stdoutPiped) =>
        var worker := spawned;
        spawned := spawned + 1;
        if !stdinPiped {
          return Err(NoStdinPipe);
        }
        if !stdoutPiped {
          return Err(NoStdoutPipe);
        }
        stdin := Some(worker);
        child := Some(worker);
        relays := relays + [worker];
        return Ok(());
    }
  }
}
