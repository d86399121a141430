/** `read_log_tail` of both dashboards (web_ui_boot_save.py and
    web_ui_bootstrap1.py hold the same code): the last `max_bytes` bytes of the
    scanner's log, read from the offset `max(0, size - max_bytes)`. */
module LogTail {

  newtype byte = x: int | 0 <= x < 256

  const DEFAULT_MAX_BYTES := 20000

  /** What opening the log file finds. */
  datatype LogFile =
    | Missing                   // LOG_FILE.exists() is false
    | Present(bytes: seq<byte>) // the whole file
    | Unreadable(reason: string) // opening, seeking or reading raised

  /** What `read_log_tail` returns, before UTF-8 decoding. */
  datatype Tail = TailBytes(bytes: seq<byte>) | ReadError(message: string)

  /** `max(0, size - max_bytes)`. */
  function TailOffset(size: nat, maxBytes: int): nat {
    if size - maxBytes > 0 then size - maxBytes else 0
  }

  /** `read_log_tail(max_bytes)`: seek to the offset and read to the end (a
      seek past the end reads nothing). */
  function ReadLogTail(log: LogFile, maxBytes: int): (t: Tail)
    ensures log.Missing? ==> t == TailBytes([])
    ensures log.Unreadable? ==> t == ReadError("[Error reading log: " + log.reason + "]")
    ensures log.Present? && maxBytes >= 0 ==>
      var n := if |log.bytes| <= maxBytes then |log.bytes| else maxBytes;
      t == TailBytes(log.bytes[|log.bytes| - n..])
    ensures log.Present? && maxBytes < 0 ==> t == TailBytes([])
  {
    match log
    case Missing => TailBytes([])
    case Unreadable(reason) => ReadError("[Error reading log: " + reason + "]")
    case Present(b) =>
      var off := TailOffset(|b|, maxBytes);
      TailBytes(if off <= |b| then b[off..] else [])
  }

  /** Whatever `max_bytes` is, a successful read returns at most `max_bytes`
      bytes and they are a suffix of the log. */
  lemma TailIsBoundedSuffix(log: LogFile, maxBytes: int)
    requires ReadLogTail(log, maxBytes).TailBytes?
    ensures var t := ReadLogTail(log, maxBytes).bytes;
      |t| <= (if maxBytes < 0 then 0 else maxBytes) &&
      (log.Present? ==> |t| <= |log.bytes| && t == log.bytes[|log.bytes| - |t|..]) &&
      (log.Missing? ==> t == [])
  {
  }
}
