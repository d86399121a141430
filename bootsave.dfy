/** The job supervisor of web_ui_boot_save.py: the `/start` and `/status`
    handlers and the `run_scanner` worker thread, which share the globals
    `current_proc`, `current_target` and `last_error`. Each handler, and each
    locked step of the worker, is one atomic transition of a `Supervisor`
    object. Process liveness, the JSON report, the reports directory, the log
    and the clock are inputs. */
module BootSave {
  import opened Wrappers
  import SafeName
  import Text
  import LogTail
  import Files
  import TextReport
  import opened Dashboard

  /** A scanner child process; only its pid is ever reported. */
  datatype Proc = Proc(pid: int)

  /** The reply of `/start`. */
  datatype StartReply =
    | AlreadyRunning       // {"status": "running", "message": "Scan already running"}
    | Started(target: string) // {"status": "running", "target": target}

  /** The reply of `/status`. Every reply carries the log tail. */
  datatype StatusReply =
    | IdleReply(log: LogTail.Tail)
    | ErrorReply(error: string, log: LogTail.Tail)
      /** The scan is over and the JSON report exists. `txt` is the name of the
          text report whose URL is offered, or the message of what generating
          it raised, which is then appended to the log as a note instead. */
    | FinishedReply(target: Option<string>, log: LogTail.Tail, txt: Result<string, string>)
      /** A process is recorded; `running` is whether it has not exited yet. */
    | ProcReply(running: bool, target: Option<string>, log: LogTail.Tail, pid: int)

  /** `current_target or DEFAULT_TARGET` (line 303): the target the text
      report is generated for. */
  function EffectiveTarget(ct: Option<string>): string {
    if Truthy(ct) then ct.value else DEFAULT_TARGET
  }

  /** Line 293 as written: the lookup token is `safe_filename(current_target or "")`. */
  function LookupPrefixAsWritten(ct: Option<string>): (r: string)
    ensures Truthy(ct) ==> r == LookupPrefix(ct)
    ensures !Truthy(ct) ==> r == ""
  {
    EmptyToken("");
    SafeName.SafeFilename(if Truthy(ct) then ct.value else "")
  }

  /** The lookup token, corrected to the target the report is generated for. */
  function LookupPrefix(ct: Option<string>): string {
    SafeName.SafeFilename(EffectiveTarget(ct))
  }

  /** Which lookup `/status` runs: line 293 as written, or as intended. */
  datatype LookupRule = AsWritten | Intended

  function LookupToken(rule: LookupRule, ct: Option<string>): string {
    match rule
    case AsWritten => LookupPrefixAsWritten(ct)
    case Intended => LookupPrefix(ct)
  }

  /** A report generated for the current target is one the next lookup finds:
      its name matches `<token>_*.txt`. */
  lemma GeneratedReportIsFound(ct: Option<string>, stamp: string)
    ensures Files.GlobMatch(TextReport.ReportName(EffectiveTarget(ct), stamp), LookupPrefix(ct) + "_", ".txt")
  {
    TextReport.ReportNameShape(EffectiveTarget(ct), stamp, stamp);
  }

  /** So a poll that generated a report does not generate another one once
      that report is in the directory: the lookup of the next poll matches. */
  lemma SecondPollReuses(ct: Option<string>, stamp: string, reports: seq<Files.DirEntry>, mtime: int)
    ensures Files.AnyMatch(Files.Put(reports, Files.DirEntry(TextReport.ReportName(EffectiveTarget(ct), stamp), mtime)),
                           LookupPrefix(ct) + "_", ".txt")
  {
    var e := Files.DirEntry(TextReport.ReportName(EffectiveTarget(ct), stamp), mtime);
    GeneratedReportIsFound(ct, stamp);
    Files.PutExists(reports, e, LookupPrefix(ct) + "_", ".txt");
  }

  /** As written, with no current target (a restarted server whose previous
      scan left the JSON report behind) the lookup pattern is `_*.txt`, and
      the report generated for the default target never matches it: a safe
      name never starts with `_`. Every poll then writes a new report. */
  lemma AsWrittenNeverReuses(stamp: string)
    ensures LookupPrefixAsWritten(None) == ""
    ensures !Files.GlobMatch(TextReport.ReportName(EffectiveTarget(None), stamp), LookupPrefixAsWritten(None) + "_", ".txt")
  {
    var empty := "";
    EmptyToken(empty);
    var url := EffectiveTarget(None);
    DefaultReportStartsWithL(url, stamp);
  }

  lemma EmptyToken(e: string)
    requires e == ""
    ensures SafeName.SafeFilename(e) == ""
  {
    assert Text.Lower(e) == e;
    assert SafeName.StripScheme(e) == e;
    assert SafeName.Collapse(e) == e;
    assert SafeName.Strip(e) == e;
  }

  lemma DefaultReportStartsWithL(url: string, stamp: string)
    requires url == DEFAULT_TARGET
    ensures TextReport.ReportName(url, stamp)[0] == 'l'
  {
    SafeName.SafeFilenameDefault(url);
    var token := SafeName.SafeFilename(url);
    assert token[0] == 'l';
    assert TextReport.ReportName(url, stamp) == token + "_" + stamp + ".txt";
  }

  class Supervisor {
    var proc: Option<Proc>
    var currentTarget: Option<string>
    var lastError: Option<string>

    /** The globals at import time (lines 31-33). */
    constructor ()
      ensures proc == None && currentTarget == None && lastError == None
    {
      proc := None;
      currentTarget := None;
      lastError := None;
    }

    /** `/start` (lines 264-277). `procAlive` is `current_proc.poll() is None`.
        A live process refuses the request and nothing changes; otherwise the
        worker is started (the process itself is recorded later, by
        `Launched`), the target is remembered and the error cleared. */
    method Start(requested: Option<string>, procAlive: bool) returns (reply: StartReply)
      modifies this
      ensures old(proc).Some? && procAlive ==>
                reply == AlreadyRunning && unchanged(this)
      ensures !(old(proc).Some? && procAlive) ==>
                && reply == Started(RequestedTarget(requested))
                && proc == old(proc)
                && currentTarget == Some(RequestedTarget(requested))
                && lastError == None
    {
      if proc.Some? && procAlive {
        return AlreadyRunning;
      }
      var target := RequestedTarget(requested);
      currentTarget := Some(target);
      lastError := None;
      reply := Started(target);
    }

    /** The worker's first locked step (lines 251-252): the spawned process
        becomes the current one. */
    method Launched(p: Proc)
      modifies this
      ensures proc == Some(p)
      ensures currentTarget == old(currentTarget) && lastError == old(lastError)
    {
      proc := Some(p);
    }

    /** The worker's second locked step (lines 254-255), after `p.wait()`:
        whatever the exit status, no process is current any more. */
    method Exited()
      modifies this
      ensures proc == None
      ensures currentTarget == old(currentTarget) && lastError == old(lastError)
    {
      proc := None;
    }

    /** The worker's exception handler (lines 256-258): the message is kept
        and no process is current. */
    method Failed(message: string)
      modifies this
      ensures proc == None && lastError == Some(message)
      ensures currentTarget == old(currentTarget)
    {
      lastError := Some(message);
      proc := None;
    }

    /** `/status` (lines 279-319), looking reports up by `rule`. `procAlive`
        is `proc.poll() is None`, `json` what the JSON report file holds,
        `reports` the reports directory, `stamp` and `generatedAt` the clock's
        readings for a report generated now and `write` the outcome of
        writing it. `written` is the text report file this poll leaves in the
        directory, if any. The supervisor's state does not change. */
    method Status(rule: LookupRule, procAlive: bool, json: TextReport.JsonFile, reports: seq<Files.DirEntry>,
                  log: LogTail.LogFile, stamp: string, generatedAt: string, write: TextReport.WriteOutcome)
      returns (reply: StatusReply, written: Option<TextReport.ReportFile>)
      ensures var tail := LogTail.ReadLogTail(log, LogTail.DEFAULT_MAX_BYTES);
        && (proc.Some? ==> reply == ProcReply(procAlive, currentTarget, tail, proc.value.pid) && written == None)
        && (proc.None? && json.NoFile? && Truthy(lastError) ==> reply == ErrorReply(lastError.value, tail) && written == None)
        && (proc.None? && json.NoFile? && !Truthy(lastError) ==> reply == IdleReply(tail) && written == None)
        && (proc.None? && !json.NoFile? ==> reply.FinishedReply? && reply.target == currentTarget && reply.log == tail)
      ensures proc.None? && !json.NoFile? ==>
                TextFor(LookupToken(rule, currentTarget), EffectiveTarget(currentTarget), json, reports, stamp,
                        generatedAt, write, reply.txt, written)
    {
      var tail := LogTail.ReadLogTail(log, LogTail.DEFAULT_MAX_BYTES);
      if proc.Some? {
        return ProcReply(procAlive, currentTarget, tail, proc.value.pid), None;
      }
      if json.NoFile? {
        if Truthy(lastError) {
          return ErrorReply(lastError.value, tail), None;
        }
        return IdleReply(tail), None;
      }
      var txt;
      txt, written := FindOrGenerate(LookupToken(rule, currentTarget), EffectiveTarget(currentTarget), json, reports,
                                     stamp, generatedAt, write);
      reply := FinishedReply(currentTarget, tail, txt);
    }
  }

  /** The text report a finished poll offers (lines 289-307): the newest
      `<token>_*.txt` of the reports directory when there is one, and nothing
      is written; otherwise the one generated now, or the message of what
      generating it raised. `written` is then the file generation left: the
      report, a truncated file when the write raised midway, or nothing. */
  ghost predicate TextFor(token: string, target: string, json: TextReport.JsonFile, reports: seq<Files.DirEntry>,
                          stamp: string, generatedAt: string, write: TextReport.WriteOutcome,
                          txt: Result<string, string>, written: Option<TextReport.ReportFile>)
  {
    var pattern := token + "_";
    var gen := TextReport.Generate(json, target, stamp, generatedAt, write);
    if Files.AnyMatch(reports, pattern, ".txt") then
      written == None && exists k: nat :: Files.IsNewest(reports, pattern, ".txt", k) && txt == Success(reports[k].name)
    else
      && written == TextReport.LeftFile(json, target, stamp, generatedAt, write)
      && (if gen.Success? then txt == Success(gen.value.name) else txt == Failure(gen.error))
  }

  method FindOrGenerate(token: string, target: string, json: TextReport.JsonFile, reports: seq<Files.DirEntry>,
                        stamp: string, generatedAt: string, write: TextReport.WriteOutcome)
    returns (txt: Result<string, string>, written: Option<TextReport.ReportFile>)
    ensures TextFor(token, target, json, reports, stamp, generatedAt, write, txt, written)
  {
    var pattern := token + "_";
    var k := Files.NewestMatching(reports, pattern, ".txt");
    if k.Some? {
      return Success(reports[k.value].name), None;
    }
    var gen;
    gen, written := TextReport.GenerateTextReport(json, target, stamp, generatedAt, write);
    if gen.Failure? {
      return Failure(gen.error), written;
    }
    txt := Success(gen.value.name);
  }

  /** Two polls after a finished scan, with the intended lookup, each with
      its own stamp and its own write outcome. A file the first poll leaves
      (the report or, when the write raised midway, a truncated one) is in
      the directory at the second poll, which therefore writes nothing. When
      the first poll left nothing, the second one behaves as a first poll
      would: it finds the report that was already there, or writes afresh. */
  method PollTwice(s: Supervisor, json: TextReport.JsonFile, reports: seq<Files.DirEntry>, log: LogTail.LogFile,
                   stamp1: string, stamp2: string, generatedAt: string,
                   write1: TextReport.WriteOutcome, write2: TextReport.WriteOutcome, mtime: int)
    returns (first: Option<TextReport.ReportFile>, second: Option<TextReport.ReportFile>)
    requires s.proc.None? && json.Parsed?
    ensures Files.AnyMatch(reports, LookupPrefix(s.currentTarget) + "_", ".txt") ==> first == None && second == None
    ensures !Files.AnyMatch(reports, LookupPrefix(s.currentTarget) + "_", ".txt") ==>
              first == TextReport.LeftFile(json, EffectiveTarget(s.currentTarget), stamp1, generatedAt, write1)
    ensures first.Some? ==>
              first.value.name == TextReport.ReportName(EffectiveTarget(s.currentTarget), stamp1) && second == None
    ensures first.None? && !Files.AnyMatch(reports, LookupPrefix(s.currentTarget) + "_", ".txt") ==>
              second == TextReport.LeftFile(json, EffectiveTarget(s.currentTarget), stamp2, generatedAt, write2)
  {
    var r1, w1 := s.Status(Intended, false, json, reports, log, stamp1, generatedAt, write1);
    var dir := if w1.Some? then Files.Put(reports, Files.DirEntry(w1.value.name, mtime)) else reports;
    var r2, w2 := s.Status(Intended, false, json, dir, log, stamp2, generatedAt, write2);
    TwoPolls(s.currentTarget, json, reports, stamp1, stamp2, generatedAt, write1, write2, mtime,
             r1.txt, w1, dir, r2.txt, w2);
    first, second := w1, w2;
  }

  /** The reasoning of `PollTwice`, for any two stamps and write outcomes. */
  lemma TwoPolls(ct: Option<string>, json: TextReport.JsonFile, reports: seq<Files.DirEntry>,
                 stamp1: string, stamp2: string, generatedAt: string,
                 write1: TextReport.WriteOutcome, write2: TextReport.WriteOutcome, mtime: int,
                 txt1: Result<string, string>, w1: Option<TextReport.ReportFile>, dir: seq<Files.DirEntry>,
                 txt2: Result<string, string>, w2: Option<TextReport.ReportFile>)
    requires TextFor(LookupToken(Intended, ct), EffectiveTarget(ct), json, reports, stamp1, generatedAt,
                     write1, txt1, w1)
    requires dir == if w1.Some? then Files.Put(reports, Files.DirEntry(w1.value.name, mtime)) else reports
    requires TextFor(LookupToken(Intended, ct), EffectiveTarget(ct), json, dir, stamp2, generatedAt,
                     write2, txt2, w2)
    ensures Files.AnyMatch(reports, LookupPrefix(ct) + "_", ".txt") ==> w1 == None && w2 == None
    ensures !Files.AnyMatch(reports, LookupPrefix(ct) + "_", ".txt") ==>
              w1 == TextReport.LeftFile(json, EffectiveTarget(ct), stamp1, generatedAt, write1)
    ensures w1.Some? ==> w1.value.name == TextReport.ReportName(EffectiveTarget(ct), stamp1) && w2 == None
    ensures w1.None? && !Files.AnyMatch(reports, LookupPrefix(ct) + "_", ".txt") ==>
              w2 == TextReport.LeftFile(json, EffectiveTarget(ct), stamp2, generatedAt, write2)
  {
    var token := LookupPrefix(ct);
    var target := EffectiveTarget(ct);
    PollLeaves(token, target, json, reports, stamp1, generatedAt, write1, txt1, w1);
    if w1.Some? {
      SecondPollReuses(ct, stamp1, reports, mtime);
    }
    PollLeaves(token, target, json, dir, stamp2, generatedAt, write2, txt2, w2);
  }

  /** What a poll leaves: nothing when the lookup finds a report, and
      otherwise the file the write leaves, named for the target and the
      stamp. */
  lemma PollLeaves(token: string, target: string, json: TextReport.JsonFile, reports: seq<Files.DirEntry>,
                   stamp: string, generatedAt: string, write: TextReport.WriteOutcome,
                   txt: Result<string, string>, written: Option<TextReport.ReportFile>)
    requires TextFor(token, target, json, reports, stamp, generatedAt, write, txt, written)
    ensures Files.AnyMatch(reports, token + "_", ".txt") ==> written == None
    ensures !Files.AnyMatch(reports, token + "_", ".txt") ==>
              written == TextReport.LeftFile(json, target, stamp, generatedAt, write)
    ensures written.Some? ==> written.value.name == TextReport.ReportName(target, stamp)
  {
  }

  /** The same two polls as written, on a restarted server (no current
      target) whose reports directory holds no `_*.txt`: each poll writes a
      new report for the default target, the second one even though the
      first one's report is in the directory. */
  method PollTwiceAsWritten(s: Supervisor, json: TextReport.JsonFile, reports: seq<Files.DirEntry>,
                            log: LogTail.LogFile, stamp1: string, stamp2: string, generatedAt: string, mtime: int)
    returns (first: Option<TextReport.ReportFile>, second: Option<TextReport.ReportFile>)
    requires s.proc.None? && s.currentTarget.None? && json.Parsed?
    requires TextReport.ReportLines(json.findings, DEFAULT_TARGET, generatedAt).Success?
    requires !Files.AnyMatch(reports, "_", ".txt")
    ensures first.Some? && first.value.name == TextReport.ReportName(DEFAULT_TARGET, stamp1)
    ensures second.Some? && second.value.name == TextReport.ReportName(DEFAULT_TARGET, stamp2)
  {
    var r1, w1 := s.Status(AsWritten, false, json, reports, log, stamp1, generatedAt, TextReport.Written);
    var dir := if w1.Some? then Files.Put(reports, Files.DirEntry(w1.value.name, mtime)) else reports;
    var r2, w2 := s.Status(AsWritten, false, json, dir, log, stamp2, generatedAt, TextReport.Written);
    TwoPollsAsWritten(json, reports, stamp1, stamp2, generatedAt, mtime, r1.txt, w1, dir, r2.txt, w2);
    first, second := w1, w2;
  }

  /** The reasoning of `PollTwiceAsWritten`. */
  lemma TwoPollsAsWritten(json: TextReport.JsonFile, reports: seq<Files.DirEntry>,
                          stamp1: string, stamp2: string, generatedAt: string, mtime: int,
                          txt1: Result<string, string>, w1: Option<TextReport.ReportFile>, dir: seq<Files.DirEntry>,
                          txt2: Result<string, string>, w2: Option<TextReport.ReportFile>)
    requires json.Parsed? && TextReport.ReportLines(json.findings, DEFAULT_TARGET, generatedAt).Success?
    requires !Files.AnyMatch(reports, "_", ".txt")
    requires TextFor(LookupToken(AsWritten, None), EffectiveTarget(None), json, reports, stamp1, generatedAt,
                     TextReport.Written, txt1, w1)
    requires dir == if w1.Some? then Files.Put(reports, Files.DirEntry(w1.value.name, mtime)) else reports
    requires TextFor(LookupToken(AsWritten, None), EffectiveTarget(None), json, dir, stamp2, generatedAt,
                     TextReport.Written, txt2, w2)
    ensures w1.Some? && w1.value.name == TextReport.ReportName(DEFAULT_TARGET, stamp1)
    ensures w2.Some? && w2.value.name == TextReport.ReportName(DEFAULT_TARGET, stamp2)
  {
    AsWrittenPollWrites(json, reports, stamp1, generatedAt, txt1, w1);
    AsWrittenNeverReuses(stamp1);
    Files.PutNoMatch(reports, Files.DirEntry(w1.value.name, mtime), "_", ".txt");
    AsWrittenPollWrites(json, dir, stamp2, generatedAt, txt2, w2);
  }

  /** One poll as written with no current target, over a directory without
      `_*.txt`, writes a new report for the default target. */
  lemma AsWrittenPollWrites(json: TextReport.JsonFile, dir: seq<Files.DirEntry>, stamp: string, generatedAt: string,
                            txt: Result<string, string>, w: Option<TextReport.ReportFile>)
    requires json.Parsed? && TextReport.ReportLines(json.findings, DEFAULT_TARGET, generatedAt).Success?
    requires !Files.AnyMatch(dir, "_", ".txt")
    requires TextFor(LookupToken(AsWritten, None), EffectiveTarget(None), json, dir, stamp, generatedAt,
                     TextReport.Written, txt, w)
    ensures w.Some? && w.value.name == TextReport.ReportName(DEFAULT_TARGET, stamp)
  {
    AsWrittenNeverReuses(stamp);
    PollLeaves("", DEFAULT_TARGET, json, dir, stamp, generatedAt, TextReport.Written, txt, w);
  }
}
