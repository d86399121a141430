# Juice Shop scanner dashboards: a verified model

The repository is a small educational web-vulnerability prober for OWASP Juice
Shop. It has two parts. `juice_scan1.py` is a scanner: it sends GET requests
against a target and collects findings. Two Flask dashboards,
`web_ui_boot_save.py` and `web_ui_bootstrap1.py`, each start that scanner as
a child process, poll its state and log, and turn its output into text
reports. This project models the deterministic logic of those three files in
Dafny and proves what they promise.

- **SafeName** (`safe_name.dfy`) models `safe_filename`: lowercase, remove
  every `http://`/`https://`, collapse runs of disallowed characters to `_`,
  strip `_` from both ends, cut at 200 characters.
- **LogTail** (`log_tail.dfy`) models `read_log_tail`, which both dashboards
  share. The log is a byte sequence, and the result is the last
  `max(0, size - max_bytes)`-offset bytes.
- **Files** (`files.dfy`) models a directory listing. It gives glob matching
  of `prefix*suffix`, the "newest by mtime" choice and the effect of
  `open(name, "w")` on the listing. Both dashboards make the choice by
  sorting on mtime, newest first.
- **TextReport** (`text_report.dfy`) models `generate_text_report`. The JSON
  findings become report lines, appended section by section, and the file is
  named `<safe_filename(target)>_<timestamp>.txt`.
- **BootSave** (`bootsave.dfy`) models the supervisor of
  `web_ui_boot_save.py`. It is a class over the globals `current_proc`,
  `current_target` and `last_error`. Its methods are `/start`, the three
  locked steps of `run_scanner`, and `/status`, which may reuse or generate
  the text report.
- **Bootstrap** (`bootstrap.dfy`) models the supervisor of
  `web_ui_bootstrap1.py`, which also has `last_report_path`. It covers
  `create_dated_report`, `/start`, `/status`, `/report` and the steps of
  `run_scanner`.
- **JuiceScan** (`juice_scan.dfy`) models the five checks of
  `juice_scan1.py` and the normalisation of `TARGET`. The network is a
  function from request to optional response. `None` stands for a request
  that raised, which `safe_get` turns into `None`. A check's findings are
  specified as `Keep(candidates, hit)`: the hits of each candidate,
  concatenated in candidate order. Each check's loop is proved equal to that
  specification.
- **Dashboard** (`dashboard.dfy`) holds what the two dashboards share: the
  default target and the choice of a scan's target in `/start`.

`Wrappers` and `Text` are shared helpers: Option/Result, ASCII lowercasing,
substring search, decimal rendering and prefixes.

Inputs replace I/O throughout:
- process liveness (`poll() is None`);
- the JSON report file, as its parsed content or the way it fails;
- the directory listing;
- the log bytes;
- the clock readings;
- the outcome of each write.

Each Flask handler and each locked step of a worker thread is one atomic
transition.

Python `bool(response)` is `response.ok`, which is false exactly for status
codes 400 to 599. The model takes truthiness with that meaning. So a status of
600 or more is truthy, although it is not "below 400".

Two consequences of the code are worth stating outright:
- The IDOR check probes the neighbours `pid + 1`, `pid + 2` and
  `max(pid - 2, 1)` of each sampled id (juice_scan1.py:115), so id 5 probes
  6, 7 and 3. `JuiceScan.NeighboursOfFive` proves it.
- Neither dashboard reads the scanner's exit status (web_ui_boot_save.py:253,
  web_ui_bootstrap1.py:195). A scanner that crashes therefore leads to
  finished or idle, never to error.

## Model

| member | source | states |
|---|---|---|
| SafeName.SafeFilename | web_ui_boot_save.py:155-161 | the safe name has at most 200 characters and never starts with `_` |
| SafeName.SafeFilenameShape | web_ui_boot_save.py:155-161 | the safe name uses only `a-z 0-9 . _ -`, has at most 200 characters, never starts with `_`, and ends with `_` only when the 200-character cut fell just after one |
| SafeName.SchemeIsRemoved | web_ui_boot_save.py:157-158 | a leading `http://` or `https://` (after lowercasing) does not affect the safe name: the name equals that of the rest of the string |
| SafeName.SafeFilenameFixedPoint | web_ui_boot_save.py:155-161 | a string that already has the safe shape (allowed characters, at most 200, no `_` at either end) is its own safe name |
| SafeName.SafeFilenameIdempotent | web_ui_boot_save.py:155-161 | applying `safe_filename` twice gives the same result as once, unless the cut left a trailing `_` |
| SafeName.SafeFilenameExample | web_ui_boot_save.py:155-161 | `http://Test.Com/` becomes `test.com` |
| SafeName.SafeFilenameDefault | web_ui_boot_save.py:155-161 | the default target `http://localhost:3000` becomes `localhost_3000` |
| SafeName.SchemeRemovedAnywhere | web_ui_boot_save.py:158 | an `http://` or `https://` anywhere in the text is removed too, whatever comes before it: the result is the pass over the text before the scheme followed by the pass over the text after it |
| SafeName.PassSplitsBeforeH | web_ui_boot_save.py:158 | the scheme pass never removes a match that starts in one text and runs into a following text that begins with `h`, so the pass over the two together is the pass over each, joined |
| SafeName.SchemeRemovedFromName | web_ui_boot_save.py:157-161 | a scheme in any letter case anywhere in the target does not reach the name: the name is built from the scheme-free lowercased text before it followed by the scheme-free lowercased rest |
| SafeName.CollapseRun | web_ui_boot_save.py:159 | a maximal run of one or more disallowed characters after allowed text becomes exactly one `_`, and the allowed text is kept |
| SafeName.CollapseAllowed | web_ui_boot_save.py:159 | text made only of allowed characters passes the collapse unchanged |
| SafeName.StripKeepsMiddle | web_ui_boot_save.py:160 | the input is the stripped result with a run of `_` on each side, and the result has no `_` at either end |
| LogTail.ReadLogTail | web_ui_boot_save.py:143-153 | a missing log gives the empty tail; an unreadable one gives the `[Error reading log: …]` text; otherwise the result is exactly the last `min(size, max_bytes)` bytes |
| LogTail.TailIsBoundedSuffix | web_ui_bootstrap1.py:140-150 | a successful read gives at most `max_bytes` bytes, and they are a suffix of the log |
| Files.GlobMatchMeaning | web_ui_boot_save.py:294 | a name matches `prefix*suffix` exactly when it is the prefix, some middle and the suffix |
| Files.Put | web_ui_boot_save.py:236 | after `open(name, "w")` the new file is in the listing, every entry with another name is kept, and the old entry of that name is gone |
| Files.PutExists | web_ui_bootstrap1.py:171 | the file just opened for writing exists, and it matches every glob its name matches |
| Files.PutNoMatch | web_ui_boot_save.py:236 | writing a file whose name does not match a glob adds no match for it |
| Files.NewestMatching | web_ui_bootstrap1.py:264-270 | None exactly when no file matches; otherwise a matching file that no match is newer than, and the first such in listing order, as a stable descending sort picks |
| TextReport.ReportNameShape | web_ui_boot_save.py:174-177 | the report name starts with `<safe_filename(target)>_` and ends with `.txt`, and different timestamps give different names |
| TextReport.GenerateName | web_ui_boot_save.py:163-241 | a generated report has that name, and exists only when the JSON parsed, every item rendered and the write succeeded |
| TextReport.DiscoveredSectionLayout | web_ui_boot_save.py:185-193 | the discovered section has the header with the full count, `min(n,30)` listed lines, the `... (n-30 more)` line when n > 30, and a final blank line |
| TextReport.DiscoveredListedAt | web_ui_boot_save.py:187-190 | listed line i is the line for entry i, for i < 30, in input order |
| TextReport.MoreLineIffOverflow | web_ui_boot_save.py:191-192 | the section has a `... (` line if and only if there are more than 30 entries |
| TextReport.ItemLines | web_ui_boot_save.py:198-225 | an item renders if and only if it is an object and, in the exposed-files section, its snippet is not a truthy number; a rendered item starts with its number ` n. ` |
| TextReport.NumberedIffAllRender | web_ui_boot_save.py:198-225 | a numbered section succeeds if and only if every item renders; the first item that raises ends the report |
| TextReport.NumberedInOrder | web_ui_boot_save.py:198-225 | a successful section is the items' blocks in input order, item i numbered i+1 |
| TextReport.NumberedFailureStays | web_ui_boot_save.py:198-225 | once a prefix of the items has raised, the items after it change nothing |
| TextReport.ReportHasAllHeaders | web_ui_boot_save.py:186-230 | every produced report holds all six section headers, each with the full length of its list |
| TextReport.EmptySection | web_ui_boot_save.py:196-226 | an empty numbered section is its header with count 0 and a blank line |
| TextReport.EmptyFindingsReport | web_ui_boot_save.py:179-232 | the exact lines of the report for empty findings, six zero counts included |
| TextReport.AppendToKeeps | web_ui_boot_save.py:195-226 | appending a section keeps the lines already built as a prefix and adds its header with the count |
| TextReport.SnippetText | web_ui_boot_save.py:223-225 | the snippet line holds at most 200 characters of the snippet, position by position, with every newline replaced by a space |
| TextReport.SnippetAsWrittenKeepsNewlines | web_ui_boot_save.py:225 | as written, a newline survives into the report and a literal backslash-n becomes a space |
| TextReport.DiscoveredLine | web_ui_boot_save.py:188-190 | an object entry's line is the one the code writes; a non-object entry is listed by its text with an empty status |
| TextReport.DiscoveredScalarFailsAsWritten | web_ui_boot_save.py:188-189 | as written, a string entry makes `u.get` raise AttributeError |
| TextReport.ListDiscovered | web_ui_boot_save.py:187-190 | the loop lists exactly the first 30 entries' lines, in order |
| TextReport.NumberItems | web_ui_boot_save.py:198-225 | the numbering loop gives exactly the numbered-section specification, the first failure included |
| TextReport.ListErrors | web_ui_boot_save.py:231-232 | one ` - e` line per scanner error, in order |
| TextReport.AppendSection | web_ui_boot_save.py:195-226 | appending one section in place gives the specified accumulation, and an earlier failure is kept |
| TextReport.DiscoveredBlock | web_ui_boot_save.py:185-193 | the lines the discovered block appends are the specified section |
| TextReport.BuildLines | web_ui_boot_save.py:179-232 | the appended lines are the report's specified lines, or the first failure |
| TextReport.GenerateTextReport | web_ui_boot_save.py:163-241 | the result is the specified report or the first failure (an unreadable or non-object JSON file, an item that raises, a failed open or write), and the file left behind is the specified one, truncated when the write raised after `open` |
| TextReport.LeftFile | web_ui_boot_save.py:235-239 | a file is left exactly when the JSON parsed, every item rendered and `open` succeeded; it has the report's name, and its lines are a prefix of the report's lines, at most `kept` of them when the write raised midway |
| TextReport.GeneratedIsLeft | web_ui_boot_save.py:235-241 | a generation that succeeds leaves exactly the report it returns |
| TextReport.Saved | web_ui_boot_save.py:235-239 | writing returns the file exactly when the write succeeded, and that file holds all the lines |
| TextReport.Leftover | web_ui_boot_save.py:235-237 | writing leaves no file when `open` failed, all the lines when the write succeeded, and otherwise a prefix of at most `kept` lines |
| TextReport.WriteReport | web_ui_boot_save.py:235-239 | the write step returns what `Saved` specifies and leaves what `Leftover` specifies |
| TextReport.SnippetTextAsWritten | web_ui_boot_save.py:225 | as written, the snippet text is still at most 200 characters long: replacing backslash-n by a space only shortens it |
| TextReport.DiscoveredLineAsWritten | web_ui_boot_save.py:188-189 | as written, a discovered entry renders if and only if it is an object; any other entry raises |
| Dashboard.RequestedTarget | web_ui_boot_save.py:267-268 | a missing or empty target becomes `DEFAULT_TARGET`, any other is kept (web_ui_bootstrap1.py:218-219 is the same expression) |
| BootSave.Supervisor.constructor | web_ui_boot_save.py:31-33 | no process, no target, no error |
| BootSave.Supervisor.Start | web_ui_boot_save.py:264-277 | with a live process: the already-running reply, and nothing changes; otherwise: the target (defaulted) is set, the error is cleared, and the reply names the target |
| BootSave.Supervisor.Launched | web_ui_boot_save.py:251-252 | the spawned process becomes current; nothing else changes |
| BootSave.Supervisor.Exited | web_ui_boot_save.py:253-255 | no process is current; target and error are unchanged |
| BootSave.Supervisor.Failed | web_ui_boot_save.py:256-258 | the error message is kept and no process is current |
| BootSave.LookupPrefixAsWritten | web_ui_boot_save.py:293 | as written, the lookup token is the corrected one while a target is set, and empty when none is |
| BootSave.Supervisor.Status | web_ui_boot_save.py:279-319 | `rule` selects line 293 as written or corrected, and `write` is the outcome of writing a generated report. Precedence: a recorded process gives running/idle with its pid; else an existing JSON report gives finished; else a truthy error gives error; else idle. The log tail is in every reply, and the state does not change |
| BootSave.FindOrGenerate | web_ui_boot_save.py:288-312 | the newest existing `<token>_*.txt` is reused and nothing is written; otherwise the report is generated and written, or the generation error is returned |
| BootSave.GeneratedReportIsFound | web_ui_boot_save.py:293-303 | with the corrected lookup token, a report generated for the current target matches the next lookup's pattern |
| BootSave.SecondPollReuses | web_ui_boot_save.py:288-303 | once that report is in the directory, the next lookup finds a match |
| BootSave.AsWrittenNeverReuses | web_ui_boot_save.py:293-303 | as written, with no current target the lookup pattern is `_*.txt`, and the report generated for the default target never matches it |
| BootSave.PollTwice | web_ui_boot_save.py:279-312 | with the corrected lookup, two polls after a finished scan, each with its own stamp and write outcome: a matching report already in the directory makes both write nothing; otherwise the first leaves what its write leaves, named for the effective target and its stamp; if it left a file (possibly truncated) the second writes nothing, and if it left none the second leaves what its own write leaves |
| BootSave.TwoPolls | web_ui_boot_save.py:288-303 | the same four facts for any two stamps and write outcomes, where the second poll sees the directory with the first poll's file put in it |
| BootSave.PollLeaves | web_ui_boot_save.py:288-303 | a poll writes nothing when the lookup finds a report, and otherwise leaves exactly the file its write leaves, named for the target and the stamp |
| BootSave.PollTwiceAsWritten | web_ui_boot_save.py:293-303 | as written, on a restarted server (no current target) with no `_*.txt` report, each of two polls writes a new report for the default target, named with its own stamp |
| BootSave.TwoPollsAsWritten | web_ui_boot_save.py:293-303 | the reasoning of the as-written two polls: both write, each a report named with its own stamp |
| BootSave.AsWrittenPollWrites | web_ui_boot_save.py:293-303 | one poll as written with no current target, over a directory without `_*.txt`, writes a new report for the default target |
| Bootstrap.CreateDatedReport | web_ui_bootstrap1.py:152-177 | a report exists if and only if the write succeeds and the log was not unreadable (nothing raises); it is named `scan_report_<today>.txt` and starts with the header |
| Bootstrap.DatedFileLeft | web_ui_bootstrap1.py:158-177 | a dated file is left exactly when the log was readable and `open` succeeded; it is named for today; it is the report when creation succeeded, and otherwise a prefix of the report's text of at most `kept` characters |
| Bootstrap.DatedReportKeepsLog | web_ui_bootstrap1.py:163-173 | after the header comes the whole log, or the no-log message when there is no log |
| Bootstrap.DatedNameShape | web_ui_bootstrap1.py:159-161 | the dated name matches `scan_report_*.txt`; two names are equal exactly when the dates are, so a later report of the same day overwrites the earlier |
| Bootstrap.Supervisor.constructor | web_ui_bootstrap1.py:27-30 | all four globals start as None |
| Bootstrap.Supervisor.Start | web_ui_bootstrap1.py:215-229 | a rejected start changes nothing; an accepted one sets the target (defaulted) and clears the error and the last report |
| Bootstrap.Supervisor.Launched | web_ui_bootstrap1.py:192-193 | the spawned process becomes current; nothing else changes |
| Bootstrap.Supervisor.Exited | web_ui_bootstrap1.py:196-197 | no process is current; nothing else changes |
| Bootstrap.Supervisor.ReportCreated | web_ui_bootstrap1.py:199-204 | the dated file left behind is returned; the report's name is remembered when creation succeeded and the last report is forgotten when it failed; nothing else changes |
| Bootstrap.Supervisor.Failed | web_ui_bootstrap1.py:206-209 | the error is kept, and neither a process nor a last report remains |
| Bootstrap.Supervisor.Status | web_ui_bootstrap1.py:231-250 | each reply holds exactly when its condition does (both directions): running while a process is recorded; else finished if the last report exists; else error if an error is set; else finished if any `scan_report_*.txt` exists; else idle |
| Bootstrap.Supervisor.Report | web_ui_bootstrap1.py:252-273 | serves the last report while it exists, else the newest `scan_report_*.txt` by mtime, else 404 |
| Bootstrap.ScanLifecycle | web_ui_bootstrap1.py:179-250 | a whole scan on a fresh server: running during it. Afterwards, when the report was written: finished, with the dated report served. When the write raised after `open`: finished, and a report served, since the truncated file is there. When `open` failed or the log was unreadable: finished exactly when older reports exist |
| JuiceScan.NormalizeTarget | juice_scan1.py:164 | the target is not empty, ends in `/`, and is at most one character longer than the argument |
| JuiceScan.NormalizeTargetShape | juice_scan1.py:164 | the target ends in exactly one `/`, differs from the argument only in trailing slashes, and normalising twice changes nothing |
| JuiceScan.Ok | juice_scan1.py:71 | `if not r` on a response: a status below 400 is truthy and a status from 400 to 599 is not |
| JuiceScan.DiscoverCommonPaths | juice_scan1.py:35-52 | the loop returns the specified findings in candidate order |
| JuiceScan.DiscoveredMembers | juice_scan1.py:35-52 | `(p, s)` is found if and only if `p` is a candidate that got a response with status `s < 400`; at most 11 entries |
| JuiceScan.TestReflectedXss | juice_scan1.py:55-77 | the nested loops return the specified findings, ordered by test point then payload |
| JuiceScan.TryPayloads | juice_scan1.py:65-76 | the inner loop returns the hits of one test point, in payload order |
| JuiceScan.XssMembers | juice_scan1.py:64-76 | `(path, payload)` is found if and only if a test point on that path got a truthy response echoing the payload verbatim |
| JuiceScan.XssBound | juice_scan1.py:57-76 | at most one entry per (test point, payload) pair, so at most 6 |
| JuiceScan.EscapingServerHasNoXss | juice_scan1.py:71-76 | a server that never sends `<` yields no XSS finding, since every payload holds one |
| JuiceScan.TestSqlInjection | juice_scan1.py:80-99 | the nested loops return the specified findings, ordered by path then payload |
| JuiceScan.TryInjections | juice_scan1.py:89-98 | the inner loop returns the hits of one path against its baseline length |
| JuiceScan.SqliMembers | juice_scan1.py:85-98 | `(p, payload, s)` is found if and only if the truthy response's lowercased body contains `sql` or `syntax error`, or its length differs from the baseline by more than 200; the baseline is 0 when the baseline request was falsy |
| JuiceScan.SqliBound | juice_scan1.py:82-98 | at most one entry per (path, payload) pair, so at most 8 |
| JuiceScan.FetchSampleIds | juice_scan1.py:104-113 | the ids come from the first 3 listing entries that are objects with an `id`, and there are none unless the listing was a 200 with a non-empty JSON list |
| JuiceScan.ProbeNeighbours | juice_scan1.py:115-120 | probing one id's neighbours records `("product", t)` exactly for the 200 responses, in probe order |
| JuiceScan.TestIdor | juice_scan1.py:102-123 | the result is the specified findings and the ids probed are `pid+1, pid+2, max(pid-2,1)` per listed id; a non-numeric id raises TypeError |
| JuiceScan.NeighboursOfFive | juice_scan1.py:115 | id 5 probes 6, 7, 3, and id 1 probes 2, 3, 1 |
| JuiceScan.IdorProbeBound | juice_scan1.py:107-115 | three probes per usable id, at most 9, and no probe at all unless the listing returned 200 with a non-empty list |
| JuiceScan.IdorMembers | juice_scan1.py:115-120 | `("product", t)` is found if and only if `t` was probed and its request got a 200 |
| JuiceScan.Snippet | juice_scan1.py:134 | the snippet holds at most 300 characters of the body, position by position, with every newline replaced by a space |
| JuiceScan.CheckSensitiveFiles | juice_scan1.py:126-137 | the loop returns the specified findings in candidate order |
| JuiceScan.ExposedMembers | juice_scan1.py:128-136 | `(p, s)` is found if and only if `p` is a candidate answered with 200 and `s` is its snippet; at most 5 entries |
| JuiceScan.UnreachableTargetFindsNothing | juice_scan1.py:25-32 | when every request raises, every check finds nothing and IDOR probes nothing |

## Left out

- Flask routing, the HTML templates, `jsonify` and `send_file` are not modelled. Each reply is a datatype holding the fields the handler returns.
- The `/report` and `/reports/<filename>` routes of `web_ui_boot_save.py` (lines 321-333) are not modelled. They only send files.
- `subprocess.Popen`, `threading.Thread` and `proc_lock` are not modelled. Each handler and each locked step is one atomic transition. The race in which `/start` launches the worker before `current_proc` is set is not modelled (web_ui_boot_save.py:273-275 against 251-252; web_ui_bootstrap1.py:224-226 against 192-193). In that window a second `/start` could spawn a second scanner.
- The scanner's exit status is not modelled because neither dashboard reads it. A crashed scanner is not an error: `run_scanner` only records exceptions raised around `Popen`.
- File-system effects are inputs: `unlink`, `open`, reads and writes, `exists()`, `glob` and mtimes. A `stat` that raises during the sort in `/report` (the 500 reply) or in `/status` is not modelled.
- The network is not modelled; it is a deterministic function from request to optional response. `urljoin`, the fragment handling of `/#/...` paths, timeouts, redirects and `time.sleep(DELAY)` are left out.
- The clock (`utcnow`, `now`, `date.today`) is left out. Its readings are string parameters.
- UTF-8 decoding with `errors="ignore"` is not modelled. `read_log_tail` works on bytes, and `create_dated_report` is given the log's decoded text.
- `Text.Lower` lowercases ASCII only. Python's `str.lower` also folds other letters, and it may change a string's length.
- Bootstrap.Supervisor.ReportCreated: `last_report_path` holds the report's name, not the full path under the application directory.
- JSON values are not modelled in full. The findings file holds strings, integers and null. Floats, booleans and nested values are not modelled, and a JSON document that is not an object is reported by its type name.
- JuiceScan.TestIdor: a non-integer id is treated as raising TypeError (the message is kept abstract). Python would add 1 to a float or a boolean id without raising.
- BootSave.Supervisor.Start: a `target` that is neither a string nor missing (a number in the request's JSON, say) is not modelled.
- Bootstrap.Supervisor.Start: the same holds for a `target` that is neither a string nor missing.
- BootSave.Supervisor.Start: a request body that is JSON but not an object and not falsy (a non-empty list, a non-empty string, a non-zero number, `true`) is not modelled. `data.get("target")` raises AttributeError there, before the lock is taken (web_ui_boot_save.py:267-268); the reply is a 500 and no state changes.
- Bootstrap.Supervisor.Start: the same holds for a request body that is not a JSON object (web_ui_bootstrap1.py:218-219).
- TextReport.GenerateTextReport: a findings section whose value is not a list is not modelled; `Findings` holds a list for each section. As written, a section holding null or a number raises TypeError at `len` (web_ui_boot_save.py:185-186, 196-197 and the like), and a non-empty string or object raises when its elements or keys are read. No report is written then.
- TextReport.GenerateTextReport: the report is built with the corrected lines 189 and 225 (`TextReport.DiscoveredLine`, `TextReport.SnippetText`). So a discovered entry that is not an object is listed instead of raising AttributeError, and a newline in a snippet becomes a space. The as-written halves are `TextReport.DiscoveredLineAsWritten` and `TextReport.SnippetTextAsWritten` (see Findings).
- BootSave.Supervisor.Status: a report it generates is built with the same corrected lines 189 and 225. The lookup of line 293 is its `rule` parameter: `AsWritten` is the line as written and `Intended` the corrected one.
- BootSave.PollTwice: it is proved with the corrected lookup. As written, with no current target every poll writes a new report; `BootSave.PollTwiceAsWritten` proves that.
- TextReport.Leftover: a write that raises midway is modelled as leaving whole lines. The text `"\n".join(lines)` may really be cut inside a line, or inside a character's encoding.
- `main()` in `juice_scan1.py` runs the checks in a fixed order (lines 142-146): discovery, XSS, SQL injection, IDOR, sensitive files. Each check is modelled on its own; the order and the printed summary are not. Nothing catches the TypeError that `test_idor` raises on a non-numeric id (`Failure("TypeError")` in the model). It therefore ends the run before `check_sensitive_files`, and that composition is not modelled.
- The dashboards' `__main__` blocks only start the Flask server, so they are not modelled. `Run.py` is not part of this model.

## Findings

| source | as written | input that shows it | evidently intended | confidence | as-written member | corrected member |
|---|---|---|---|---|---|---|
| web_ui_boot_save.py:225 | `replace('\\n',' ')` replaces a backslash followed by `n`, not a newline; being a backslash inside an f-string expression, it also makes the module a SyntaxError before Python 3.12 | a snippet `"a\nb"` (with a real newline) stays `"a\nb"`, so the report gets an unlabelled extra line | replace newlines with spaces, as juice_scan1.py:134 does | not executed | TextReport.SnippetTextAsWritten (shown by TextReport.SnippetAsWrittenKeepsNewlines) | TextReport.SnippetText |
| web_ui_boot_save.py:188-189 | the `isinstance(u, dict)` guard on line 188 is followed by an unguarded `u.get("status", "")` on line 189 | a discovered entry that is the string `"http://x/"` raises AttributeError, and no report is written | list a non-object entry by its `str()` with an empty status | not executed | TextReport.DiscoveredLineAsWritten (shown by TextReport.DiscoveredScalarFailsAsWritten) | TextReport.DiscoveredLine |
| web_ui_boot_save.py:293-303 | the lookup uses `safe_filename(current_target or "")` while generation uses `current_target or DEFAULT_TARGET` | with `current_target` None and the JSON report present (after a restart), the pattern is `_*.txt`; the report `localhost_3000_<ts>.txt` never matches, so every poll writes a new one | look up the token of the target the report is generated for | not executed | BootSave.LookupPrefixAsWritten (shown by BootSave.AsWrittenNeverReuses) | BootSave.LookupPrefix (proved by BootSave.GeneratedReportIsFound, BootSave.SecondPollReuses) |
