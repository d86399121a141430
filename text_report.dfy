/** `generate_text_report` of web_ui_boot_save.py: reads the scanner's JSON
    findings and turns them into the lines of a human-readable report named
    `<safe_filename(target)>_<timestamp>.txt`. The JSON file, the clock and the
    write are inputs; the lines are built by appending, section by section. */
module TextReport {
  import opened Wrappers
  import opened Text
  import SafeName

  /** At most this many discovered URLs are listed. */
  const MAX_LISTED := 30
  /** Snippets of exposed files are cut to this many characters. */
  const MAX_SNIPPET := 200

  /** A JSON scalar of the findings file. */
  datatype Value = Null | Str(s: string) | Num(n: int)

  /** One entry of a findings list: an object (keys to scalars) or a bare scalar. */
  datatype Item = Object(fields: map<string, Value>) | Scalar(v: Value)

  /** The six lists of the findings file; a missing key is an empty list
      (`data.get(key, [])`). */
  datatype Findings = Findings(
    discovered: seq<Item>, xss: seq<Item>, sqli: seq<Item>,
    idor: seq<Item>, sensitive: seq<Item>, errors: seq<Value>)

  /** What `json.load` makes of the findings file. */
  datatype JsonFile =
    | NoFile
    | Unreadable(reason: string)       // open or json.load raised
    | NotAnObject(typeName: string)    // valid JSON whose top level is not an object
    | Parsed(findings: Findings)

  /** What writing the report does (lines 235-239): `open(txt_path, "w")`
      fails and leaves the directory alone, or it creates (or truncates) the
      file and the write then succeeds, or raises after the first `kept`
      lines reached the file. */
  datatype WriteOutcome = Written | OpenFails(reason: string) | WriteFails(reason: string, kept: nat)

  /** The report file: its name inside the reports directory and its lines
      (the file holds them joined with "\n"). */
  datatype ReportFile = ReportFile(name: string, lines: seq<string>)

  /** The item sections that number their entries. */
  datatype Section = XssSection | SqliSection | IdorSection | SensitiveSection

  /** `str(v)`. */
  function Render(v: Value): string {
    match v
    case Null => "None"
    case Str(s) => s
    case Num(n) => IntToString(n)
  }

  /** `type(v).__name__`. */
  function TypeName(v: Value): string {
    match v
    case Null => "NoneType"
    case Str(_) => "str"
    case Num(_) => "int"
  }

  /** `bool(v)`. */
  predicate Truthy(v: Value) {
    match v
    case Null => false
    case Str(s) => s != ""
    case Num(n) => n != 0
  }

  /** `fields.get(key, default)`. */
  function GetOr(fields: map<string, Value>, key: string, default: Value): Value {
    if key in fields then fields[key] else default
  }

  /** `fields.get(key)`. */
  function Get(fields: map<string, Value>, key: string): Value {
    GetOr(fields, key, Null)
  }

  /** The message of the AttributeError raised by `v.get(...)` on a non-object. */
  function NoGetError(typeName: string): string {
    "'" + typeName + "' object has no attribute 'get'"
  }

  function ReadFailure(reason: string): string {
    "Could not read JSON report: " + reason
  }

  function WriteFailure(reason: string): string {
    "Could not write text report: " + reason
  }

  /** `f"{safe_filename(target)}_{now}.txt"`. */
  function ReportName(target: string, stamp: string): string {
    SafeName.SafeFilename(target) + "_" + stamp + ".txt"
  }

  // ---------------------------------------------------------------- snippets

  /** `snippet[:200].replace('\n', ' ')`: the evident intent of line 225, which
      the model uses. */
  function SnippetText(s: string): (r: string)
    ensures |r| <= MAX_SNIPPET && |r| <= |s|
    ensures forall i :: 0 <= i < |r| ==> r[i] != '\n'
    ensures forall i :: 0 <= i < |r| ==> r[i] == (if s[i] == '\n' then ' ' else s[i])
  {
    ReplaceChar(Take(s, MAX_SNIPPET), '\n', ' ')
  }

  /** `s.replace('\\n', ' ')`: Python's left-to-right, non-overlapping
      replacement of the two characters backslash and `n`. */
  function ReplaceBackslashN(s: string): (r: string)
    ensures |r| <= |s|
  {
    if |s| >= 2 && s[0] == '\\' && s[1] == 'n' then " " + ReplaceBackslashN(s[2..])
    else if s == [] then []
    else [s[0]] + ReplaceBackslashN(s[1..])
  }

  /** Line 225 as written: the literal `'\\n'` is a backslash followed by `n`,
      not a newline. */
  function SnippetTextAsWritten(s: string): (r: string)
    ensures |r| <= MAX_SNIPPET
  {
    ReplaceBackslashN(Take(s, MAX_SNIPPET))
  }

  /** As written, a newline of the snippet survives into the report line (so
      the joined file gets an extra, unlabelled line), and a literal `\n` in
      the file's text is turned into a space. */
  lemma SnippetAsWrittenKeepsNewlines()
    ensures SnippetTextAsWritten("a\nb") == "a\nb"
    ensures SnippetTextAsWritten("a\\nb") == "a b"
    ensures SnippetText("a\nb") == "a b"
  {
    assert ReplaceBackslashN("b") == "b";
    assert ReplaceBackslashN("\nb") == "\nb";
    assert ReplaceBackslashN("a\nb") == "a\nb";
    assert "a\\nb"[1..] == "\\nb" && "\\nb"[2..] == "b";
    assert ReplaceBackslashN("\\nb") == " b";
    assert ReplaceBackslashN("a\\nb") == "a b";
  }

  // ------------------------------------------------------ discovered URLs

  /** Lines 188-190 as written: the `isinstance` guard covers only `url`, so
      `u.get("status", "")` raises on an entry that is not an object. */
  function DiscoveredLineAsWritten(u: Item): (r: Result<string, string>)
    ensures r.Success? <==> u.Object?
  {
    match u
    case Object(f) => Success(" - " + Render(Get(f, "url")) + "   [" + Render(GetOr(f, "status", Str(""))) + "]")
    case Scalar(v) => Failure(NoGetError(TypeName(v)))
  }

  /** Lines 188-190 as evidently intended, which the model uses: an entry that
      is not an object is listed by its `str()` with an empty status. */
  function DiscoveredLine(u: Item): (r: string)
    ensures " - " <= r
    ensures u.Object? ==> DiscoveredLineAsWritten(u) == Success(r)
    ensures u.Scalar? ==> r == " - " + Render(u.v) + "   []"
  {
    match u
    case Object(f) => " - " + Render(Get(f, "url")) + "   [" + Render(GetOr(f, "status", Str(""))) + "]"
    case Scalar(v) => " - " + Render(v) + "   []"
  }

  /** As written, a bare string among the first 30 discovered entries makes
      report generation raise. */
  lemma DiscoveredScalarFailsAsWritten(url: string)
    ensures DiscoveredLineAsWritten(Scalar(Str(url))) == Failure(NoGetError("str"))
    ensures DiscoveredLine(Scalar(Str(url))) == " - " + url + "   []"
  {
  }

  /** The lines listing the first 30 discovered entries. */
  function ListedUrls(ds: seq<Item>): seq<string> {
    var n := if |ds| <= MAX_LISTED then |ds| else MAX_LISTED;
    seq(n, i requires 0 <= i < n => DiscoveredLine(ds[i]))
  }

  function MoreLine(n: nat): string {
    "   ... (" + NatToString(n) + " more)"
  }

  /** Lines 186-193: header with the full count, at most 30 entries, the
      "more" line, a blank line. */
  function DiscoveredSection(ds: seq<Item>): seq<string> {
    ["Discovered URLs: " + NatToString(|ds|)]
      + ListedUrls(ds)
      + (if |ds| > MAX_LISTED then [MoreLine(|ds| - MAX_LISTED)] else [])
      + [""]
  }

  // ------------------------------------------------------- numbered items

  function Header(s: Section): string {
    match s
    case XssSection => "XSS findings: "
    case SqliSection => "SQLi findings: "
    case IdorSection => "IDOR findings: "
    case SensitiveSection => "Exposed files/paths: "
  }

  /** `f" {i+1}. "`, the start of an item's first line. */
  function Number(n: nat): string {
    " " + NatToString(n) + ". "
  }

  /** What follows the number on the first line of an object entry. */
  function ItemFields(s: Section, f: map<string, Value>): string {
    match s
    case XssSection =>
      "URL: " + Render(Get(f, "url")) + " Param: " + Render(Get(f, "param"))
        + " Payload: " + Render(Get(f, "payload"))
    case SqliSection =>
      "URL: " + Render(Get(f, "url")) + " Payload: " + Render(Get(f, "payload"))
        + " Status: " + Render(Get(f, "status"))
    case IdorSection =>
      "Endpoint: " + Render(Get(f, "endpoint")) + " Tested ID: " + Render(Get(f, "tested_id"))
        + " Status: " + Render(Get(f, "status"))
    case SensitiveSection =>
      "Path: " + Render(Get(f, "path")) + " Status: " + Render(Get(f, "status"))
  }

  /** The first line of item number `n` of an object entry. */
  function ItemHead(s: Section, n: nat, f: map<string, Value>): string {
    Number(n) + ItemFields(s, f)
  }

  /** The lines of item number `n`: its head line, then the SQLi hint line
      when `sql_hint` is truthy, or the snippet line when `snippet` is truthy.
      A non-object entry raises on `.get`; a truthy snippet that is a number
      raises on slicing. */
  function ItemLines(s: Section, n: nat, item: Item): (r: Result<seq<string>, string>)
    ensures r.Success? ==> |r.value| >= 1 && Number(n) <= r.value[0]
    ensures r.Success? <==> Renders(s, item)
  {
    match item
    case Scalar(v) => Failure(NoGetError(TypeName(v)))
    case Object(f) =>
      var head := ItemHead(s, n, f);
      match s
      case SqliSection =>
        var hint := Get(f, "sql_hint");
        Success([head] + (if Truthy(hint) then ["    Hint: " + Render(hint)] else []))
      case SensitiveSection =>
        var snippet := GetOr(f, "snippet", Str(""));
        if !Truthy(snippet) then Success([head])
        else if snippet.Str? then Success([head, "    Snippet: " + SnippetText(snippet.s)])
        else Failure("'int' object is not subscriptable")
      case _ => Success([head])
  }

  /** An item renders without raising exactly when it is an object and, in
      the exposed-files section, its snippet is not a truthy number;
      its position in the section plays no part. */
  predicate Renders(s: Section, item: Item) {
    item.Object? && (s == SensitiveSection ==>
      !GetOr(item.fields, "snippet", Str("")).Num? || !Truthy(GetOr(item.fields, "snippet", Str(""))))
  }

  /** The item lines of a numbered section for `items`, numbered 1..|items|;
      the first raising item ends it. */
  function Numbered(s: Section, items: seq<Item>): Result<seq<string>, string>
    decreases |items|
  {
    if items == [] then Success([])
    else
      match Numbered(s, items[..|items| - 1])
      case Failure(e) => Failure(e)
      case Success(prev) =>
        match ItemLines(s, |items|, items[|items| - 1])
        case Failure(e) => Failure(e)
        case Success(ls) => Success(prev + ls)
  }

  /** A numbered section: header with the count, the items, a blank line. */
  function SectionLines(s: Section, items: seq<Item>): Result<seq<string>, string> {
    match Numbered(s, items)
    case Failure(e) => Failure(e)
    case Success(ls) => Success([Header(s) + NatToString(|items|)] + ls + [""])
  }

  function ErrorItems(errs: seq<Value>): seq<string> {
    seq(|errs|, i requires 0 <= i < |errs| => " - " + Render(errs[i]))
  }

  /** Lines 229-232: the count of scanner errors and one line per error. */
  function ErrorLines(errs: seq<Value>): seq<string> {
    ["Scanner errors: " + NatToString(|errs|)] + ErrorItems(errs)
  }

  function Preamble(target: string, generatedAt: string): seq<string> {
    ["Juice Shop Scan Report", "Target: " + target, "Generated: " + generatedAt + " UTC", ""]
  }

  /** Appends section `s` for `items` to the lines built so far; the first
      failure is kept. */
  function AppendTo(acc: Result<seq<string>, string>, s: Section, items: seq<Item>): Result<seq<string>, string> {
    match acc
    case Failure(e) => Failure(e)
    case Success(ls) =>
      match SectionLines(s, items)
      case Failure(e) => Failure(e)
      case Success(sec) => Success(ls + sec)
  }

  /** All the report's lines, in the order lines 180-232 append them. */
  function ReportLines(f: Findings, target: string, generatedAt: string): Result<seq<string>, string> {
    var start := Success(Preamble(target, generatedAt) + DiscoveredSection(f.discovered));
    match AppendTo(AppendTo(AppendTo(AppendTo(start, XssSection, f.xss), SqliSection, f.sqli),
                            IdorSection, f.idor), SensitiveSection, f.sensitive)
    case Failure(e) => Failure(e)
    case Success(ls) => Success(ls + ErrorLines(f.errors))
  }

  /** `generate_text_report(json_path, target)` with the clock's two readings
      (`stamp` for the name, `generatedAt` for the header) and the outcome of
      the write as inputs. */
  function Generate(json: JsonFile, target: string, stamp: string, generatedAt: string, write: WriteOutcome)
    : Result<ReportFile, string>
  {
    match json
    case NoFile => Failure(ReadFailure("No such file or directory"))
    case Unreadable(reason) => Failure(ReadFailure(reason))
    case NotAnObject(t) => Failure(NoGetError(t))
    case Parsed(f) =>
      match ReportLines(f, target, generatedAt)
      case Failure(e) => Failure(e)
      case Success(ls) => Saved(ReportName(target, stamp), ls, write)
  }

  /** The file generation leaves in the reports directory: the report when
      it is written; when a write raised after the file was opened, the
      same name holding only the first lines; nothing when the JSON could
      not be turned into lines or the file could not be opened. */
  function LeftFile(json: JsonFile, target: string, stamp: string, generatedAt: string, write: WriteOutcome)
    : (f: Option<ReportFile>)
    ensures f.Some? <==>
              json.Parsed? && ReportLines(json.findings, target, generatedAt).Success? && !write.OpenFails?
    ensures f.Some? ==> f.value.name == ReportName(target, stamp)
    ensures f.Some? ==> f.value.lines <= ReportLines(json.findings, target, generatedAt).value
    ensures f.Some? && write.WriteFails? ==> |f.value.lines| <= write.kept
  {
    if !json.Parsed? then None
    else
      match ReportLines(json.findings, target, generatedAt)
      case Failure(_) => None
      case Success(ls) => Leftover(ReportName(target, stamp), ls, write)
  }

  /** A report that generation returns is the file it leaves. */
  lemma GeneratedIsLeft(json: JsonFile, target: string, stamp: string, generatedAt: string, write: WriteOutcome)
    requires Generate(json, target, stamp, generatedAt, write).Success?
    ensures LeftFile(json, target, stamp, generatedAt, write) == Some(Generate(json, target, stamp, generatedAt, write).value)
  {
    var lines := ReportLines(json.findings, target, generatedAt);
    assert lines.Success?;
  }

  /** What writing `ls` to the file `name` returns: the file, or the message
      of what the open or the write raised. */
  function Saved(name: string, ls: seq<string>, write: WriteOutcome): (r: Result<ReportFile, string>)
    ensures r.Success? <==> write.Written?
    ensures r.Success? ==> r.value == ReportFile(name, ls)
  {
    if write.Written? then Success(ReportFile(name, ls)) else Failure(WriteFailure(write.reason))
  }

  /** The file writing `ls` to `name` leaves: all of it, its first `kept`
      lines, or none when the open failed. */
  function Leftover(name: string, ls: seq<string>, write: WriteOutcome): (f: Option<ReportFile>)
    ensures f.Some? <==> !write.OpenFails?
    ensures f.Some? ==> f.value.name == name && f.value.lines <= ls
    ensures write.Written? ==> f == Some(ReportFile(name, ls))
    ensures f.Some? && write.WriteFails? ==> |f.value.lines| <= write.kept
  {
    match write
    case OpenFails(_) => None
    case Written => Some(ReportFile(name, ls))
    case WriteFails(_, kept) => Some(ReportFile(name, if kept < |ls| then ls[..kept] else ls))
  }

  // ------------------------------------------------------------- lemmas

  /** The discovered-URL section: the header carries the full count, at most
      30 entries are listed in input order, then the "... (n-30 more)" line
      when there are more than 30, then a blank line. */
  lemma DiscoveredSectionLayout(ds: seq<Item>)
    ensures var sec := DiscoveredSection(ds);
      var m := if |ds| <= MAX_LISTED then |ds| else MAX_LISTED;
      && |sec| == m + 2 + (if |ds| > MAX_LISTED then 1 else 0)
      && sec[0] == "Discovered URLs: " + NatToString(|ds|)
      && (|ds| > MAX_LISTED ==> sec[1 + MAX_LISTED] == MoreLine(|ds| - MAX_LISTED))
      && sec[|sec| - 1] == ""
  {
    var head := ["Discovered URLs: " + NatToString(|ds|)];
    var more := if |ds| > MAX_LISTED then [MoreLine(|ds| - MAX_LISTED)] else [];
    Layout(head, ListedUrls(ds), more, "");
  }

  /** Line 1 + i of the section lists discovered entry i, for the first 30. */
  lemma DiscoveredListedAt(ds: seq<Item>, i: nat)
    requires i < |ds| && i < MAX_LISTED
    ensures DiscoveredSection(ds)[1 + i] == DiscoveredLine(ds[i])
  {
    var head := ["Discovered URLs: " + NatToString(|ds|)];
    var more := if |ds| > MAX_LISTED then [MoreLine(|ds| - MAX_LISTED)] else [];
    LayoutAt(head, ListedUrls(ds), more, "", i);
  }

  /** Where the parts of `h + m + o + [z]` sit. */
  lemma Layout<T>(h: seq<T>, m: seq<T>, o: seq<T>, z: T)
    ensures var a := h + m + o + [z];
      && |a| == |h| + |m| + |o| + 1
      && (h != [] ==> a[0] == h[0])
      && (o != [] ==> a[|h| + |m|] == o[0])
      && a[|a| - 1] == z
  {
  }

  lemma LayoutAt<T>(h: seq<T>, m: seq<T>, o: seq<T>, z: T, i: nat)
    requires i < |m|
    ensures (h + m + o + [z])[|h| + i] == m[i]
  {
  }

  /** A "   ... (" line is in the section exactly when more than 30 URLs were
      discovered: no listed entry and no header can be mistaken for it. */
  lemma MoreLineIffOverflow(ds: seq<Item>)
    ensures (exists i :: 0 <= i < |DiscoveredSection(ds)| && "   ... (" <= DiscoveredSection(ds)[i])
              <==> |ds| > MAX_LISTED
  {
    var sec := DiscoveredSection(ds);
    DiscoveredSectionLayout(ds);
    var m := if |ds| <= MAX_LISTED then |ds| else MAX_LISTED;
    if |ds| > MAX_LISTED {
      MoreLinePrefix(|ds| - MAX_LISTED);
    } else {
      forall i | 0 <= i < |sec| ensures !("   ... (" <= sec[i]) {
        if i == 0 {
          HeaderNotMoreLine(|ds|);
        } else if i <= m {
          DiscoveredListedAt(ds, i - 1);
          NotMoreLine(sec[i]);
        } else {
          NotMoreLine(sec[i]);
        }
      }
    }
  }

  lemma MoreLinePrefix(n: nat)
    ensures "   ... (" <= MoreLine(n)
  {
  }

  lemma HeaderNotMoreLine(n: nat)
    ensures !("   ... (" <= "Discovered URLs: " + NatToString(n))
  {
    var h := "Discovered URLs: " + NatToString(n);
    assert h[0] == 'D';
  }

  /** An empty line, or one whose second character is `-`, is no "more" line. */
  lemma NotMoreLine(x: string)
    requires x == [] || (|x| > 1 && x[1] == '-')
    ensures !("   ... (" <= x)
  {
  }

  /** `ItemLines` as a plain block of lines (empty for an item that raises). */
  function Block(s: Section, n: nat, item: Item): seq<string> {
    match ItemLines(s, n, item)
    case Success(ls) => ls
    case Failure(_) => []
  }

  function Concat(blocks: seq<seq<string>>): seq<string> {
    if blocks == [] then [] else Concat(blocks[..|blocks| - 1]) + blocks[|blocks| - 1]
  }

  /** The blocks of `items`, item i (from 0) numbered i + 1. */
  function Blocks(s: Section, items: seq<Item>): seq<seq<string>> {
    Indexed(items, BlockOf(s))
  }

  function BlockOf(s: Section): (nat, Item) -> seq<string> {
    (n: nat, item: Item) => Block(s, n, item)
  }

  /** `f(1, xs[0]), f(2, xs[1]), ...` */
  function Indexed<T, U>(xs: seq<T>, f: (nat, T) -> U): (r: seq<U>)
    ensures |r| == |xs|
  {
    seq(|xs|, i requires 0 <= i < |xs| => f(i + 1, xs[i]))
  }

  lemma IndexedSnoc<T, U>(xs: seq<T>, f: (nat, T) -> U)
    requires xs != []
    ensures Indexed(xs, f) == Indexed(xs[..|xs| - 1], f) + [f(|xs|, xs[|xs| - 1])]
  {
    var front := xs[..|xs| - 1];
    var a, b := Indexed(xs, f), Indexed(front, f) + [f(|xs|, xs[|xs| - 1])];
    forall i | 0 <= i < |a| ensures a[i] == b[i] {
      if i < |front| {
        assert front[i] == xs[i];
      }
    }
  }

  predicate AllRender(s: Section, items: seq<Item>) {
    forall i :: 0 <= i < |items| ==> Renders(s, items[i])
  }

  lemma ConcatSnoc(bs: seq<seq<string>>, b: seq<string>)
    ensures Concat(bs + [b]) == Concat(bs) + b
  {
    assert (bs + [b])[..|bs|] == bs;
  }

  lemma BlocksSnoc(s: Section, items: seq<Item>)
    requires items != []
    ensures Blocks(s, items) == Blocks(s, items[..|items| - 1]) + [Block(s, |items|, items[|items| - 1])]
  {
    IndexedSnoc(items, BlockOf(s));
  }

  lemma AllRenderSnoc(s: Section, items: seq<Item>)
    requires items != []
    ensures AllRender(s, items) <==> AllRender(s, items[..|items| - 1]) && Renders(s, items[|items| - 1])
  {
    var front := items[..|items| - 1];
    assert forall i :: 0 <= i < |front| ==> front[i] == items[i];
  }

  /** A numbered section succeeds exactly when every item renders. */
  lemma {:induction false} NumberedIffAllRender(s: Section, items: seq<Item>)
    ensures Numbered(s, items).Success? <==> AllRender(s, items)
    decreases |items|
  {
    if items != [] {
      NumberedIffAllRender(s, items[..|items| - 1]);
      AllRenderSnoc(s, items);
    }
  }

  /** A numbered section that succeeds is the items' blocks in input order,
      item i (from 0) numbered i + 1. */
  lemma {:induction false} NumberedInOrder(s: Section, items: seq<Item>)
    requires Numbered(s, items).Success?
    ensures Numbered(s, items).value == Concat(Blocks(s, items))
    decreases |items|
  {
    if items != [] {
      var n := |items|;
      var front := items[..n - 1];
      assert Numbered(s, front).Success?;
      NumberedInOrder(s, front);
      var last := ItemLines(s, n, items[n - 1]);
      assert Numbered(s, items).value == Numbered(s, front).value + last.value;
      BlocksSnoc(s, items);
      ConcatSnoc(Blocks(s, front), Block(s, n, items[n - 1]));
    }
  }

  /** A failure of the first i items is the failure of the whole section. */
  lemma {:induction false} NumberedFailureStays(s: Section, items: seq<Item>, i: nat)
    requires i <= |items| && Numbered(s, items[..i]).Failure?
    ensures Numbered(s, items) == Numbered(s, items[..i])
    decreases |items| - i
  {
    if i < |items| {
      assert items[..i + 1][..i] == items[..i];
      NumberedFailureStays(s, items, i + 1);
    } else {
      assert items[..i] == items;
    }
  }

  /** One more item: its lines are appended, or its failure is the
      failure of the whole section. */
  lemma NumberedNext(s: Section, items: seq<Item>, i: nat, ls: seq<string>)
    requires i < |items| && Numbered(s, items[..i]) == Success(ls)
    ensures ItemLines(s, i + 1, items[i]).Failure? ==> Numbered(s, items) == ItemLines(s, i + 1, items[i])
    ensures ItemLines(s, i + 1, items[i]).Success? ==>
              Numbered(s, items[..i + 1]) == Success(ls + ItemLines(s, i + 1, items[i]).value)
  {
    assert items[..i + 1][..i] == items[..i];
    if ItemLines(s, i + 1, items[i]).Failure? {
      NumberedFailureStays(s, items, i + 1);
    }
  }

  /** Appending a section keeps the earlier lines and adds its header. */
  lemma AppendToKeeps(acc: Result<seq<string>, string>, s: Section, items: seq<Item>)
    requires AppendTo(acc, s, items).Success?
    ensures acc.Success? && acc.value <= AppendTo(acc, s, items).value
    ensures Header(s) + NatToString(|items|) in AppendTo(acc, s, items).value
  {
    var sec := SectionLines(s, items).value;
    assert AppendTo(acc, s, items).value == acc.value + sec;
    assert AppendTo(acc, s, items).value[|acc.value|] == sec[0];
  }

  lemma InPrefix(x: string, a: seq<string>, b: seq<string>)
    requires a <= b && x in a
    ensures x in b
  {
    var i :| 0 <= i < |a| && a[i] == x;
    assert b[i] == x;
  }

  /** The four numbered sections keep everything before them. */
  lemma SectionsKeep(start: seq<string>, f: Findings, ls: seq<string>)
    requires AppendTo(AppendTo(AppendTo(AppendTo(Success(start), XssSection, f.xss), SqliSection, f.sqli),
                               IdorSection, f.idor), SensitiveSection, f.sensitive) == Success(ls)
    ensures start <= ls
    ensures "XSS findings: " + NatToString(|f.xss|) in ls
    ensures "SQLi findings: " + NatToString(|f.sqli|) in ls
    ensures "IDOR findings: " + NatToString(|f.idor|) in ls
    ensures "Exposed files/paths: " + NatToString(|f.sensitive|) in ls
  {
    var a1 := AppendTo(Success(start), XssSection, f.xss);
    var a2 := AppendTo(a1, SqliSection, f.sqli);
    var a3 := AppendTo(a2, IdorSection, f.idor);
    AppendToKeeps(a3, SensitiveSection, f.sensitive);
    AppendToKeeps(a2, IdorSection, f.idor);
    AppendToKeeps(a1, SqliSection, f.sqli);
    AppendToKeeps(Success(start), XssSection, f.xss);
    InPrefix(Header(IdorSection) + NatToString(|f.idor|), a3.value, ls);
    assert a2.value <= ls;
    InPrefix(Header(SqliSection) + NatToString(|f.sqli|), a2.value, ls);
    assert a1.value <= ls;
    InPrefix(Header(XssSection) + NatToString(|f.xss|), a1.value, ls);
  }

  /** When the report can be built, each of the six section headers is among
      its lines with the full length of its list, 0 for an empty list. */
  lemma ReportHasAllHeaders(f: Findings, target: string, generatedAt: string)
    requires ReportLines(f, target, generatedAt).Success?
    ensures var ls := ReportLines(f, target, generatedAt).value;
      && "Discovered URLs: " + NatToString(|f.discovered|) in ls
      && "XSS findings: " + NatToString(|f.xss|) in ls
      && "SQLi findings: " + NatToString(|f.sqli|) in ls
      && "IDOR findings: " + NatToString(|f.idor|) in ls
      && "Exposed files/paths: " + NatToString(|f.sensitive|) in ls
      && "Scanner errors: " + NatToString(|f.errors|) in ls
  {
    var ls := ReportLines(f, target, generatedAt).value;
    var pre := Preamble(target, generatedAt);
    var disc := DiscoveredSection(f.discovered);
    var start := pre + disc;
    var a4 := AppendTo(AppendTo(AppendTo(AppendTo(Success(start), XssSection, f.xss), SqliSection, f.sqli),
                                IdorSection, f.idor), SensitiveSection, f.sensitive);
    var es := ErrorLines(f.errors);
    assert ls == a4.value + es;
    SectionsKeep(start, f, a4.value);
    InPrefix(Header(XssSection) + NatToString(|f.xss|), a4.value, ls);
    InPrefix(Header(SqliSection) + NatToString(|f.sqli|), a4.value, ls);
    InPrefix(Header(IdorSection) + NatToString(|f.idor|), a4.value, ls);
    InPrefix(Header(SensitiveSection) + NatToString(|f.sensitive|), a4.value, ls);
    assert start[|pre|] == disc[0];
    InPrefix(disc[0], start, a4.value);
    InPrefix(disc[0], a4.value, ls);
    assert ls[|a4.value|] == es[0];
  }

  lemma EmptySection(s: Section)
    ensures SectionLines(s, []) == Success([Header(s) + "0", ""])
  {
    var none: seq<Item> := [];
    assert Numbered(s, none) == Success([]);
    assert NatToString(|none|) == "0";
    assert SectionLines(s, none) == Success([Header(s) + NatToString(|none|)] + [] + [""]);
    var want: seq<string> := [Header(s) + "0", ""];
    assert [Header(s) + NatToString(|none|)] + [] + [""] == want;
  }

  /** A scan with no findings at all still yields a complete report: every
      section header is there with the count 0. */
  lemma EmptyFindingsReport(target: string, generatedAt: string)
    ensures ReportLines(Findings([], [], [], [], [], []), target, generatedAt) == Success([
      "Juice Shop Scan Report", "Target: " + target, "Generated: " + generatedAt + " UTC", "",
      "Discovered URLs: " + "0", "",
      "XSS findings: " + "0", "",
      "SQLi findings: " + "0", "",
      "IDOR findings: " + "0", "",
      "Exposed files/paths: " + "0", "",
      "Scanner errors: " + "0"])
  {
    assert NatToString(0) == "0";
    assert ListedUrls([]) == [];
    assert ErrorItems([]) == [];
    var none: seq<Item> := [];
    var f := Findings(none, none, none, none, none, []);
    var pre := Preamble(target, generatedAt);
    var disc: seq<string> := ["Discovered URLs: " + "0", ""];
    assert DiscoveredSection(none) == disc;
    EmptySection(XssSection);
    EmptySection(SqliSection);
    EmptySection(IdorSection);
    EmptySection(SensitiveSection);
    var a1 := AppendTo(Success(pre + disc), XssSection, none);
    assert a1 == Success(pre + disc + ["XSS findings: " + "0", ""]);
    var a2 := AppendTo(a1, SqliSection, none);
    assert a2 == Success(a1.value + ["SQLi findings: " + "0", ""]);
    var a3 := AppendTo(a2, IdorSection, none);
    assert a3 == Success(a2.value + ["IDOR findings: " + "0", ""]);
    var a4 := AppendTo(a3, SensitiveSection, none);
    assert a4 == Success(a3.value + ["Exposed files/paths: " + "0", ""]);
    var errs: seq<string> := ["Scanner errors: " + "0"];
    assert ErrorLines([]) == errs;
    assert ReportLines(f, target, generatedAt) == Success(a4.value + errs);
    var want: seq<string> := [
      "Juice Shop Scan Report", "Target: " + target, "Generated: " + generatedAt + " UTC", "",
      "Discovered URLs: " + "0", "",
      "XSS findings: " + "0", "",
      "SQLi findings: " + "0", "",
      "IDOR findings: " + "0", "",
      "Exposed files/paths: " + "0", "",
      "Scanner errors: " + "0"];
    assert |a4.value + errs| == |want|;
    assert a4.value + errs == want;
  }

  /** The report's name is the safe token of the target, `_`, the timestamp
      and `.txt`, so it matches the `<token>_*.txt` pattern the status poll
      looks for, and two timestamps give two names. */
  lemma ReportNameShape(target: string, stamp: string, other: string)
    ensures var name := ReportName(target, stamp);
      var token := SafeName.SafeFilename(target);
      && |token| + 1 + |".txt"| <= |name|
      && token + "_" <= name
      && name[|name| - 4..] == ".txt"
    ensures ReportName(target, stamp) == ReportName(target, other) ==> stamp == other
  {
    Framed(SafeName.SafeFilename(target) + "_", stamp, other, ".txt");
  }

  /** `p + x + e` starts with `p`, ends with `e`, and determines `x`. */
  lemma Framed<T>(p: seq<T>, x: seq<T>, y: seq<T>, e: seq<T>)
    ensures var a := p + x + e;
      && a[..|p|] == p && a[|a| - |e|..] == e && |p| + |e| <= |a|
    ensures p + x + e == p + y + e ==> x == y
  {
    var a, b := p + x + e, p + y + e;
    assert a[|p|..|p| + |x|] == x;
    if a == b {
      assert |x| == |y|;
      assert b[|p|..|p| + |y|] == y;
    }
  }

  /** A generated report is always named after the target and the stamp,
      whatever the findings. */
  lemma GenerateName(json: JsonFile, target: string, stamp: string, generatedAt: string, write: WriteOutcome)
    requires Generate(json, target, stamp, generatedAt, write).Success?
    ensures Generate(json, target, stamp, generatedAt, write).value.name == ReportName(target, stamp)
    ensures json.Parsed? && write.Written? && ReportLines(json.findings, target, generatedAt).Success?
  {
    var g := Generate(json, target, stamp, generatedAt, write);
    assert json.Parsed?;
    var lines := ReportLines(json.findings, target, generatedAt);
    assert lines.Success?;
    assert write.Written?;
    assert g == Success(ReportFile(ReportName(target, stamp), lines.value));
  }

  // ----------------------------------------------------- the generator

  /** Lines 187-190: the loop over the first 30 discovered entries. */
  method ListDiscovered(ds: seq<Item>) returns (ls: seq<string>)
    ensures ls == ListedUrls(ds)
  {
    var n := if |ds| <= MAX_LISTED then |ds| else MAX_LISTED;
    ghost var all := ListedUrls(ds);
    ls := [];
    var i := 0;
    while i < n
      invariant 0 <= i <= n == |all|
      invariant ls == all[..i]
    {
      assert all[..i + 1] == all[..i] + [all[i]];
      ls := ls + [DiscoveredLine(ds[i])];
      i := i + 1;
    }
  }

  /** The `for i, item in enumerate(items)` loop of a numbered section; the
      first entry that raises ends it. */
  method NumberItems(s: Section, items: seq<Item>) returns (r: Result<seq<string>, string>)
    ensures r == Numbered(s, items)
  {
    var ls: seq<string> := [];
    var i := 0;
    while i < |items|
      invariant 0 <= i <= |items|
      invariant Numbered(s, items[..i]) == Success(ls)
    {
      var item := ItemLines(s, i + 1, items[i]);
      NumberedNext(s, items, i, ls);
      if item.Failure? {
        return item;
      }
      ls := ls + item.value;
      i := i + 1;
    }
    assert items[..i] == items;
    r := Success(ls);
  }

  /** Lines 231-232: one line per scanner error. */
  method ListErrors(errs: seq<Value>) returns (ls: seq<string>)
    ensures ls == ErrorItems(errs)
  {
    ls := [];
    var i := 0;
    while i < |errs|
      invariant 0 <= i <= |errs|
      invariant |ls| == i && forall j :: 0 <= j < i ==> ls[j] == " - " + Render(errs[j])
    {
      ls := ls + [" - " + Render(errs[i])];
      i := i + 1;
    }
  }

  /** A numbered section: header line, the item loop, blank line; nothing
      is appended once something has raised. */
  method AppendSection(acc: Result<seq<string>, string>, s: Section, items: seq<Item>)
    returns (r: Result<seq<string>, string>)
    ensures r == AppendTo(acc, s, items)
  {
    if acc.Failure? {
      return acc;
    }
    var numbered := NumberItems(s, items);
    if numbered.Failure? {
      return Failure(numbered.error);
    }
    var section := [Header(s) + NatToString(|items|)] + numbered.value + [""];
    r := Success(acc.value + section);
  }

  /** Lines 185-190: the discovered-URLs block. */
  method DiscoveredBlock(ds: seq<Item>) returns (lines: seq<string>)
    ensures lines == DiscoveredSection(ds)
  {
    lines := ["Discovered URLs: " + NatToString(|ds|)];
    var listed := ListDiscovered(ds);
    lines := lines + listed;
    if |ds| > MAX_LISTED {
      lines := lines + [MoreLine(|ds| - MAX_LISTED)];
    }
    lines := lines + [""];
  }

  /** Lines 179-232: the report's lines, or what building them raises. */
  method BuildLines(f: Findings, target: string, generatedAt: string) returns (r: Result<seq<string>, string>)
    ensures r == ReportLines(f, target, generatedAt)
  {
    var discovered := DiscoveredBlock(f.discovered);
    var step := Success(Preamble(target, generatedAt) + discovered);
    step := AppendSection(step, XssSection, f.xss);
    step := AppendSection(step, SqliSection, f.sqli);
    step := AppendSection(step, IdorSection, f.idor);
    step := AppendSection(step, SensitiveSection, f.sensitive);
    if step.Failure? {
      return Failure(step.error);
    }
    var es := ListErrors(f.errors);
    r := Success(step.value + (["Scanner errors: " + NatToString(|f.errors|)] + es));
  }

  /** `generate_text_report`: the report file it writes, or the message of
      what it raises, and the file it leaves in the reports directory. */
  method GenerateTextReport(json: JsonFile, target: string, stamp: string, generatedAt: string, write: WriteOutcome)
    returns (r: Result<ReportFile, string>, left: Option<ReportFile>)
    ensures r == Generate(json, target, stamp, generatedAt, write)
    ensures left == LeftFile(json, target, stamp, generatedAt, write)
  {
    left := None;
    if json.NoFile? {
      return Failure(ReadFailure("No such file or directory")), left;
    } else if json.Unreadable? {
      return Failure(ReadFailure(json.reason)), left;
    } else if json.NotAnObject? {
      return Failure(NoGetError(json.typeName)), left;
    }
    var built := BuildLines(json.findings, target, generatedAt);
    if built.Failure? {
      return Failure(built.error), left;
    }
    r, left := WriteReport(ReportName(target, stamp), built.value, write);
  }

  /** Lines 235-239: writing the built lines to `<token>_<stamp>.txt`. */
  method WriteReport(name: string, ls: seq<string>, write: WriteOutcome)
    returns (r: Result<ReportFile, string>, left: Option<ReportFile>)
    ensures r == Saved(name, ls, write)
    ensures left == Leftover(name, ls, write)
  {
    if write.OpenFails? {
      return Failure(WriteFailure(write.reason)), None;
    }
    if write.WriteFails? {
      var kept := if write.kept < |ls| then ls[..write.kept] else ls;
      return Failure(WriteFailure(write.reason)), Some(ReportFile(name, kept));
    }
    r := Success(ReportFile(name, ls));
    left := Some(r.value);
  }
}
