/** The job supervisor of web_ui_bootstrap1.py: `/start`, `/status`,
    `/report` and the `run_scanner` worker thread, which share the globals
    `current_proc`, `current_target`, `last_error` and `last_report_path`,
    and `create_dated_report`, which copies the scanner's log into a dated
    text report once the scanner has exited. Each handler and each locked
    step of the worker is one atomic transition of a `Supervisor` object;
    process liveness, the application directory, the log and the clock are
    inputs. */
module Bootstrap {
  import opened Wrappers
  import LogTail
  import Files
  import Text
  import opened Dashboard

  const REPORT_PREFIX := "scan_report_"
  const REPORT_SUFFIX := ".txt"

  datatype Proc = Proc(pid: int)

  /** The scanner's log as `create_dated_report` reads it, already decoded. */
  datatype LogSource =
    | NoLog                      // LOG_FILE.exists() is false
    | LogText(text: string)      // the whole log
    | LogUnreadable(reason: string) // opening or reading raised

  /** A text report file: its name in the application directory and its text. */
  datatype DatedReport = DatedReport(name: string, content: string)

  datatype StartReply = AlreadyRunning | Started(target: string)

  /** The reply of `/status`; every reply carries the log tail. */
  datatype StatusReply =
    | RunningReply(target: Option<string>, log: LogTail.Tail)
    | FinishedReply(target: Option<string>, log: LogTail.Tail)
    | ErrorReply(error: string, log: LogTail.Tail)
    | IdleReply(log: LogTail.Tail)

  /** The reply of `/report`: the file sent, or the 404 "Report not found". */
  datatype ReportReply = Serve(name: string) | NotFound

  /** `f"scan_report_{today}.txt"` (line 160). */
  function DatedName(today: string): string {
    REPORT_PREFIX + today + REPORT_SUFFIX
  }

  /** The header written before the log (line 170). */
  function ReportHeader(now: string, target: string): string {
    "Scan Report - " + now + "\nTarget: " + target + "\n\n"
  }

  /** What stands in for a missing log (line 168). */
  function NoLogMessage(target: string): string {
    "No scanner log found for target " + target + ".\n"
  }

  /** What writing the report file does (lines 171-173). `open(report_path,
      "w")` either fails, leaving the directory alone, or creates the file
      (truncating one of the same name); a write that then raises leaves the
      first `kept` characters of the text in it. */
  datatype WriteOutcome = Written | OpenFails | WriteFails(kept: nat)

  /** The text the report is meant to hold: the header, then the whole log or
      the no-log message; None when reading the log raised (lines 163-170). */
  function DatedText(target: string, now: string, log: LogSource): Option<string> {
    match log
    case LogUnreadable(_) => None
    case NoLog => Some(ReportHeader(now, target) + NoLogMessage(target))
    case LogText(text) => Some(ReportHeader(now, target) + text)
  }

  /** `create_dated_report(target)` (lines 152-177) with `date.today()` as
      `today` and `datetime.now()` as `now`: the report it returns. Every
      failure is caught and gives None. */
  function CreateDatedReport(target: string, today: string, now: string, log: LogSource, write: WriteOutcome)
    : (r: Option<DatedReport>)
    ensures r.Some? <==> write.Written? && !log.LogUnreadable?
    ensures r.Some? ==> r.value.name == DatedName(today)
    ensures r.Some? ==> ReportHeader(now, target) <= r.value.content
  {
    match DatedText(target, now, log)
    case None => None
    case Some(text) => if write.Written? then Some(DatedReport(DatedName(today), text)) else None
  }

  /** The file `create_dated_report` leaves in the application directory:
      the returned report when it succeeds, and also, when a write raised
      after the file was opened, a truncated file under the same name. */
  function DatedFileLeft(target: string, today: string, now: string, log: LogSource, write: WriteOutcome)
    : (f: Option<DatedReport>)
    ensures f.Some? <==> !write.OpenFails? && !log.LogUnreadable?
    ensures f.Some? ==> f.value.name == DatedName(today)
    ensures CreateDatedReport(target, today, now, log, write).Some? ==> f == CreateDatedReport(target, today, now, log, write)
    ensures f.Some? && write.WriteFails? ==> |f.value.content| <= write.kept
    ensures f.Some? ==> f.value.content <= DatedText(target, now, log).value
  {
    match DatedText(target, now, log)
    case None => None
    case Some(text) =>
      match write
      case OpenFails => None
      case Written => Some(DatedReport(DatedName(today), text))
      case WriteFails(kept) => Some(DatedReport(DatedName(today), Text.Take(text, kept)))
  }

  /** After the header the report holds the whole log, or the no-log
      message when there was none. */
  lemma DatedReportKeepsLog(target: string, today: string, now: string, log: LogSource, write: WriteOutcome)
    requires CreateDatedReport(target, today, now, log, write).Some?
    ensures var c := CreateDatedReport(target, today, now, log, write).value.content;
      var h := ReportHeader(now, target);
      && |h| <= |c|
      && (log.LogText? ==> c[|h|..] == log.text)
      && (log.NoLog? ==> c[|h|..] == NoLogMessage(target))
  {
    var c := CreateDatedReport(target, today, now, log, write).value.content;
    var h := ReportHeader(now, target);
    if log.LogText? {
      assert c == h + log.text;
    } else {
      assert c == h + NoLogMessage(target);
    }
  }

  /** The dated names match `scan_report_*.txt`, and two reports share a name
      exactly when they are made on the same day: the later one overwrites
      the earlier. */
  lemma DatedNameShape(today: string, other: string)
    ensures Files.GlobMatch(DatedName(today), REPORT_PREFIX, REPORT_SUFFIX)
    ensures DatedName(today) == DatedName(other) <==> today == other
  {
    var a := DatedName(today);
    assert a == REPORT_PREFIX + today + REPORT_SUFFIX;
    assert a[..|REPORT_PREFIX|] == REPORT_PREFIX;
    assert a[|a| - |REPORT_SUFFIX|..] == REPORT_SUFFIX;
    if DatedName(other) == a {
      var b := DatedName(other);
      assert |today| == |other|;
      assert a[|REPORT_PREFIX|..|REPORT_PREFIX| + |today|] == today;
      assert b[|REPORT_PREFIX|..|REPORT_PREFIX| + |other|] == other;
    }
  }

  class Supervisor {
    var proc: Option<Proc>
    var currentTarget: Option<string>
    var lastError: Option<string>
    var lastReportPath: Option<string>

    /** The globals at import time (lines 27-30). */
    constructor ()
      ensures proc == None && currentTarget == None && lastError == None && lastReportPath == None
    {
      proc := None;
      currentTarget := None;
      lastError := None;
      lastReportPath := None;
    }

    /** `/start` (lines 215-229). `procAlive` is `current_proc.poll() is
        None`. A live process refuses the request and nothing changes;
        otherwise the target is remembered and the error and the last report
        are forgotten. */
    method Start(requested: Option<string>, procAlive: bool) returns (reply: StartReply)
      modifies this
      ensures old(proc).Some? && procAlive ==> reply == AlreadyRunning && unchanged(this)
      ensures !(old(proc).Some? && procAlive) ==>
                && reply == Started(RequestedTarget(requested))
                && proc == old(proc)
                && currentTarget == Some(RequestedTarget(requested))
                && lastError == None && lastReportPath == None
    {
      if proc.Some? && procAlive {
        return AlreadyRunning;
      }
      var target := RequestedTarget(requested);
      currentTarget := Some(target);
      lastError := None;
      lastReportPath := None;
      reply := Started(target);
    }

    /** Lines 192-193: the spawned process becomes the current one. */
    method Launched(p: Proc)
      modifies this
      ensures proc == Some(p)
      ensures currentTarget == old(currentTarget) && lastError == old(lastError)
      ensures lastReportPath == old(lastReportPath)
    {
      proc := Some(p);
    }

    /** Lines 196-197, after `p.wait()`: no process is current any more. */
    method Exited()
      modifies this
      ensures proc == None
      ensures currentTarget == old(currentTarget) && lastError == old(lastError)
      ensures lastReportPath == old(lastReportPath)
    {
      proc := None;
    }

    /** Lines 200-204: the dated report is created for the worker's target and
        remembered, or forgotten when creating it failed. `written` is the file
        left in the directory, which a write that failed midway leaves
        truncated. */
    method ReportCreated(target: string, today: string, now: string, log: LogSource, write: WriteOutcome)
      returns (written: Option<DatedReport>)
      modifies this
      ensures written == DatedFileLeft(target, today, now, log, write)
      ensures CreateDatedReport(target, today, now, log, write).Some? ==> lastReportPath == Some(DatedName(today))
      ensures CreateDatedReport(target, today, now, log, write).None? ==> lastReportPath == None
      ensures proc == old(proc) && currentTarget == old(currentTarget) && lastError == old(lastError)
    {
      var rpt := CreateDatedReport(target, today, now, log, write);
      written := DatedFileLeft(target, today, now, log, write);
      if rpt.Some? {
        lastReportPath := Some(rpt.value.name);
      } else {
        lastReportPath := None;
      }
    }

    /** The worker's exception handler (lines 206-209). */
    method Failed(message: string)
      modifies this
      ensures proc == None && lastError == Some(message) && lastReportPath == None
      ensures currentTarget == old(currentTarget)
    {
      lastError := Some(message);
      proc := None;
      lastReportPath := None;
    }

    /** `Path(last_report_path).exists()` behind a truthy `last_report_path`. */
    predicate LastReportExists(dir: seq<Files.DirEntry>)
      reads this
    {
      Truthy(lastReportPath) && Files.Exists(dir, lastReportPath.value)
    }

    /** `/status` (lines 231-250) over the application directory `dir`. */
    function Status(dir: seq<Files.DirEntry>, log: LogTail.LogFile): (r: StatusReply)
      reads this
      ensures r.log == LogTail.ReadLogTail(log, LogTail.DEFAULT_MAX_BYTES)
      ensures r.RunningReply? <==> proc.Some?
      ensures r.FinishedReply? <==>
                proc.None? && (LastReportExists(dir) ||
                               (!Truthy(lastError) && Files.AnyMatch(dir, REPORT_PREFIX, REPORT_SUFFIX)))
      ensures r.ErrorReply? <==> proc.None? && !LastReportExists(dir) && Truthy(lastError)
      ensures r.ErrorReply? ==> r.error == lastError.value
      ensures r.IdleReply? <==>
                proc.None? && !LastReportExists(dir) && !Truthy(lastError)
                && !Files.AnyMatch(dir, REPORT_PREFIX, REPORT_SUFFIX)
      ensures r.RunningReply? || r.FinishedReply? ==> r.target == currentTarget
    {
      var tail := LogTail.ReadLogTail(log, LogTail.DEFAULT_MAX_BYTES);
      if proc.Some? then RunningReply(currentTarget, tail)
      else if LastReportExists(dir) then FinishedReply(currentTarget, tail)
      else if Truthy(lastError) then ErrorReply(lastError.value, tail)
      else if Files.AnyMatch(dir, REPORT_PREFIX, REPORT_SUFFIX) then FinishedReply(currentTarget, tail)
      else IdleReply(tail)
    }

    /** `/report` (lines 252-273): the last report when it still exists,
        otherwise the newest `scan_report_*.txt`, otherwise 404. */
    method Report(dir: seq<Files.DirEntry>) returns (r: ReportReply)
      ensures LastReportExists(dir) ==> r == Serve(lastReportPath.value)
      ensures !LastReportExists(dir) && !Files.AnyMatch(dir, REPORT_PREFIX, REPORT_SUFFIX) ==> r == NotFound
      ensures !LastReportExists(dir) && Files.AnyMatch(dir, REPORT_PREFIX, REPORT_SUFFIX) ==>
                exists k: nat :: Files.IsNewest(dir, REPORT_PREFIX, REPORT_SUFFIX, k) && r == Serve(dir[k].name)
    {
      if LastReportExists(dir) {
        return Serve(lastReportPath.value);
      }
      var k := Files.NewestMatching(dir, REPORT_PREFIX, REPORT_SUFFIX);
      if k.None? {
        return NotFound;
      }
      r := Serve(dir[k.value].name);
    }
  }

  /** A whole scan on a fresh server: `/start`, the worker's steps, and a
      `/status` poll while the scanner runs and one after it has exited and
      the file `create_dated_report` left, if any, is in the directory (at
      time `mtime`). The first poll reports the requested target running.
      When the report was written, the second poll reports the scan finished
      and `/report` serves it. When a write raised after the file was opened,
      the truncated file still makes the scan look finished and `/report`
      serves some `scan_report_*.txt`. Otherwise the second poll falls back
      to the older reports. */
  method ScanLifecycle(requested: Option<string>, p: Proc, today: string, now: string, log: LogSource,
                       write: WriteOutcome, dir: seq<Files.DirEntry>, tail: LogTail.LogFile, mtime: int)
    returns (during: StatusReply, after: StatusReply, served: ReportReply)
    ensures during.RunningReply? && during.target == Some(RequestedTarget(requested))
    ensures write.Written? && !log.LogUnreadable? ==> after.FinishedReply? && served == Serve(DatedName(today))
    ensures write.WriteFails? && !log.LogUnreadable? ==> after.FinishedReply? && served.Serve?
    ensures write.OpenFails? || log.LogUnreadable? ==>
              (after.FinishedReply? <==> Files.AnyMatch(dir, REPORT_PREFIX, REPORT_SUFFIX))
  {
    var s := new Supervisor();
    var started := s.Start(requested, false);
    s.Launched(p);
    during := s.Status(dir, tail);
    s.Exited();
    var target := RequestedTarget(requested);
    var written := s.ReportCreated(target, today, now, log, write);
    var listing := dir;
    if written.Some? {
      var e := Files.DirEntry(written.value.name, mtime);
      listing := Files.Put(dir, e);
      DatedNameShape(today, today);
      Files.PutExists(dir, e, REPORT_PREFIX, REPORT_SUFFIX);
    }
    after := s.Status(listing, tail);
    served := s.Report(listing);
  }
}
