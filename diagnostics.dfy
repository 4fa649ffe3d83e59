/**
 * The private data directory and the worker's per-instance log file: where
 * it lives, how it is named after the host's process id, and how it is read
 * back.
 */
module Diagnostics {
  import opened Wrappers
  import opened Paths

  const AppDirName: string := "Concord"
  const AppDataMissing: string := "APPDATA not set"

  /**
   * app_data_dir: the Concord directory under APPDATA, created on demand.
   * appData is the APPDATA variable, createError the outcome of creating the
   * directory (none when it exists or was created).
   */
  function AppDataDir(appData: Option<Path>, createError: Option<string>): (r: Result<Path>)
    ensures r.Ok? <==> appData.Some? && createError.None?
    ensures r.Ok? ==> Parent(r.value) == appData && r.value[|r.value| - 1] == AppDirName
    ensures appData.None? ==> r == Err(AppDataMissing)
    ensures appData.Some? && createError.Some? ==> r == Err(createError.value)
  {
    match appData
    case None => Err(AppDataMissing)
    case Some(base) =>
      var dir := Join(base, AppDirName);
      match createError
      case Some(e) => Err(e)
      case None => Ok(dir)
  }

  predicate IsDigits(s: string)
  {
    forall i :: 0 <= i < |s| ==> '0' <= s[i] <= '9'
  }

  function DigitChar(d: nat): (c: char)
    requires d < 10
    ensures '0' <= c <= '9' && c as int - '0' as int == d
  {
    (d + '0' as int) as char
  }

  /** The decimal text Rust's Display gives a process id: digits, no leading zero. */
  function Decimal(n: nat): (s: string)
    ensures |s| >= 1 && IsDigits(s)
    ensures |s| > 1 ==> s[0] != '0'
    decreases n
  {
    if n < 10 then [DigitChar(n)] else Decimal(n / 10) + [DigitChar(n % 10)]
  }

  /** The number a string of decimal digits denotes. */
  function DecimalValue(s: string): nat
    requires IsDigits(s)
    decreases |s|
  {
    if s == [] then 0
    else DecimalValue(s[..|s| - 1]) * 10 + (s[|s| - 1] as int - '0' as int)
  }

  /** Reading the decimal text back gives the number. */
  lemma {:induction false} DecimalRoundTrip(n: nat)
    ensures DecimalValue(Decimal(n)) == n
  {
    if n >= 10 {
      var s := Decimal(n);
      assert s[..|s| - 1] == Decimal(n / 10);
      DecimalRoundTrip(n / 10);
    }
  }

  const LogPrefix: string := "sidecar-"
  const LogSuffix: string := ".log"

  /** sidecar-<pid>.log */
  function LogFileName(pid: nat): (name: string)
    ensures |name| == |LogPrefix| + |Decimal(pid)| + |LogSuffix|
    ensures name[..|LogPrefix|] == LogPrefix && name[|name| - |LogSuffix|..] == LogSuffix
    ensures name[|LogPrefix|..|name| - |LogSuffix|] == Decimal(pid)
  {
    LogPrefix + Decimal(pid) + LogSuffix
  }

  /** Two host processes with different ids never share a log file name. */
  lemma LogFileNameInjective(pid1: nat, pid2: nat)
    ensures LogFileName(pid1) == LogFileName(pid2) ==> pid1 == pid2
  {
    if LogFileName(pid1) == LogFileName(pid2) {
      var n := LogFileName(pid1);
      assert Decimal(pid1) == n[|LogPrefix|..|n| - |LogSuffix|] == Decimal(pid2);
      DecimalRoundTrip(pid1);
      DecimalRoundTrip(pid2);
    }
  }

  /** sidecar_log_path: the log file of this host process inside the data directory. */
  function LogPath(appData: Option<Path>, createError: Option<string>, pid: nat): (r: Result<Path>)
    ensures r.Ok? <==> AppDataDir(appData, createError).Ok?
    ensures r.Err? ==> r == AppDataDir(appData, createError)
    ensures r.Ok? ==> Parent(r.value) == Some(AppDataDir(appData, createError).value)
                      && r.value[|r.value| - 1] == LogFileName(pid)
  {
    match AppDataDir(appData, createError)
    case Err(e) => Err(e)
    case Ok(dir) => Ok(Join(dir, LogFileName(pid)))
  }

  /** Host processes with different ids write to different log files. */
  lemma LogPathsDistinct(appData: Option<Path>, createError: Option<string>, pid1: nat, pid2: nat)
    requires pid1 != pid2 && LogPath(appData, createError, pid1).Ok?
    ensures LogPath(appData, createError, pid2).Ok?
    ensures LogPath(appData, createError, pid1) != LogPath(appData, createError, pid2)
  {
    LogFileNameInjective(pid1, pid2);
    var p1 := LogPath(appData, createError, pid1).value;
    var p2 := LogPath(appData, createError, pid2).value;
    assert p1[|p1| - 1] != p2[|p2| - 1];
  }

  /**
   * get_sidecar_log: the log file's contents. read is fs::read_to_string,
   * none when the file cannot be read. Only a missing data directory is an
   * error; a log that does not exist (yet) reads as the empty string.
   */
  function ReadLog(appData: Option<Path>, createError: Option<string>, pid: nat,
                   read: Path -> Option<string>): (r: Result<string>)
    ensures r.Err? <==> AppDataDir(appData, createError).Err?
    ensures r.Err? ==> r.error == AppDataDir(appData, createError).error
    ensures r.Ok? && read(LogPath(appData, createError, pid).value).None? ==> r.value == ""
    ensures r.Ok? && read(LogPath(appData, createError, pid).value).Some? ==>
              r.value == read(LogPath(appData, createError, pid).value).value
  {
    match LogPath(appData, createError, pid)
    case Err(e) => Err(e)
    case Ok(path) =>
      match read(path)
      case Some(s) => Ok(s)
      case None => Ok("")
  }
}
