/** The probes of juice_scan1.py. Each check walks a fixed list of
    candidates, sends one GET per candidate through `safe_get` and appends a
    finding when the response meets the check's rule. The network is a
    function from request to optional response: `None` is a request that
    raised, which `safe_get` turns into `None` (lines 25-32). */
module JuiceScan {
  import opened Wrappers
  import opened Text

  // ------------------------------------------------------------ the wire

  /** What `r.json()` gives: a list of entries, some other JSON value, or a
      body that is not JSON (the decoder raises). */
  datatype JsonBody = NotJson | JArray(items: seq<JItem>) | JOther

  /** A list entry: an object with its fields, or anything else. */
  datatype JItem = JObject(fields: map<string, JValue>) | JNonObject

  /** A field value: an integer, or a value `+ 1` raises on (a string, null,
      a list, an object). */
  datatype JValue = JInt(n: int) | JNonNumber

  datatype Response = Response(status: int, text: string, json: JsonBody)

  /** `session.get(urljoin(TARGET, path), params=params)`. */
  datatype Request = Request(path: string, params: seq<(string, string)>)

  /** `safe_get`: the response, or None when the request raised. */
  type Network = Request -> Option<Response>

  /** `bool(response)` is `response.ok`: false exactly for the 4xx and 5xx
      status codes `raise_for_status` raises on. */
  predicate Ok(r: Response): (b: bool)
    ensures r.status < 400 ==> b
    ensures 400 <= r.status < 600 ==> !b
  {
    !(400 <= r.status < 600)
  }

  /** `if r` / `if not r` on what `safe_get` returned. */
  predicate Truthy(r: Option<Response>) {
    r.Some? && Ok(r.value)
  }

  // ------------------------------------------------------- the target

  function TrimTrailingSlashes(s: string): (r: string)
    ensures r <= s
    ensures r == [] || r[|r| - 1] != '/'
    ensures forall i :: |r| <= i < |s| ==> s[i] == '/'
  {
    if s == [] || s[|s| - 1] != '/' then s else TrimTrailingSlashes(s[..|s| - 1])
  }

  /** `sys.argv[1].rstrip("/") + "/"` (line 164). */
  function NormalizeTarget(arg: string): (t: string)
    ensures t != [] && t[|t| - 1] == '/'
    ensures |t| <= |arg| + 1
  {
    TrimTrailingSlashes(arg) + "/"
  }

  /** The target ends in exactly one `/`, differs from the argument only in
      its trailing slashes, and normalising it again changes nothing. */
  lemma NormalizeTargetShape(arg: string)
    ensures var t := NormalizeTarget(arg);
      && t[|t| - 1] == '/'
      && (|t| < 2 || t[|t| - 2] != '/')
      && t[..|t| - 1] <= arg
      && (forall i :: |t| - 1 <= i < |arg| ==> arg[i] == '/')
    ensures NormalizeTarget(NormalizeTarget(arg)) == NormalizeTarget(arg)
  {
    var t := NormalizeTarget(arg);
    var core := TrimTrailingSlashes(arg);
    assert t[..|t| - 1] == core;
    assert t[..|t| - 1] == TrimTrailingSlashes(t) by {
      assert t[..|t| - 1] == core;
      assert TrimTrailingSlashes(t) == TrimTrailingSlashes(core);
    }
  }

  // ------------------------------------------- findings in candidate order

  /** The findings of a walk over `xs`, `hit(x)` being what candidate `x`
      appends: the candidates' findings concatenated in candidate order. */
  function Keep<T, U>(xs: seq<T>, hit: T -> seq<U>): seq<U>
    decreases |xs|
  {
    if xs == [] then [] else Keep(xs[..|xs| - 1], hit) + hit(xs[|xs| - 1])
  }

  lemma KeepSnoc<T, U>(xs: seq<T>, x: T, hit: T -> seq<U>)
    ensures Keep(xs + [x], hit) == Keep(xs, hit) + hit(x)
  {
    assert (xs + [x])[..|xs|] == xs;
  }

  /** One more candidate of `xs` examined. */
  lemma KeepStep<T, U>(xs: seq<T>, i: nat, hit: T -> seq<U>)
    requires i < |xs|
    ensures Keep(xs[..i + 1], hit) == Keep(xs[..i], hit) + hit(xs[i])
  {
    assert xs[..i + 1] == xs[..i] + [xs[i]];
    KeepSnoc(xs[..i], xs[i], hit);
  }

  /** Findings of earlier candidates come before those of later ones. */
  lemma {:induction false} KeepAppend<T, U>(xs: seq<T>, ys: seq<T>, hit: T -> seq<U>)
    ensures Keep(xs + ys, hit) == Keep(xs, hit) + Keep(ys, hit)
    decreases |ys|
  {
    if ys == [] {
      assert xs + ys == xs;
    } else {
      var n := |ys|;
      var zs := xs + ys;
      assert zs[..|zs| - 1] == xs + ys[..n - 1];
      assert zs[|zs| - 1] == ys[n - 1];
      KeepAppend(xs, ys[..n - 1], hit);
    }
  }

  /** A finding is reported exactly when some candidate produces it. */
  lemma {:induction false} KeepMember<T, U>(xs: seq<T>, hit: T -> seq<U>, u: U)
    ensures u in Keep(xs, hit) <==> exists i :: 0 <= i < |xs| && u in hit(xs[i])
    decreases |xs|
  {
    if xs != [] {
      var n := |xs|;
      var front := xs[..n - 1];
      KeepMember(front, hit, u);
      if u in Keep(xs, hit) && u !in hit(xs[n - 1]) {
        var i :| 0 <= i < |front| && u in hit(front[i]);
        assert xs[i] == front[i];
      }
      if u !in Keep(xs, hit) {
        forall i | 0 <= i < n ensures u !in hit(xs[i]) {
          if i < n - 1 {
            assert xs[i] == front[i];
          }
        }
      }
    }
  }

  /** Candidates that append at most one finding each give at most one
      finding per candidate. */
  lemma {:induction false} KeepLength<T, U>(xs: seq<T>, hit: T -> seq<U>)
    requires forall i :: 0 <= i < |xs| ==> |hit(xs[i])| <= 1
    ensures |Keep(xs, hit)| <= |xs|
    decreases |xs|
  {
    if xs != [] {
      var front := xs[..|xs| - 1];
      assert forall i :: 0 <= i < |front| ==> front[i] == xs[i];
      KeepLength(front, hit);
    }
  }

  /** The candidates of a nested loop: every `a` of `outer` with every `b` of
      `bs`, outer loop first. */
  function Pairs<A, B>(outer: seq<A>, bs: seq<B>): (r: seq<(A, B)>)
    ensures |r| == |outer| * |bs|
    decreases |outer|
  {
    if outer == [] then [] else Pairs(outer[..|outer| - 1], bs) + Row(outer[|outer| - 1], bs)
  }

  function Row<A, B>(a: A, bs: seq<B>): (r: seq<(A, B)>)
    ensures |r| == |bs|
    ensures forall k :: 0 <= k < |bs| ==> r[k] == (a, bs[k])
  {
    seq(|bs|, k requires 0 <= k < |bs| => (a, bs[k]))
  }

  lemma RowSnoc<A, B>(a: A, bs: seq<B>, j: nat)
    requires j < |bs|
    ensures Row(a, bs[..j + 1]) == Row(a, bs[..j]) + [(a, bs[j])]
  {
  }

  lemma PairsSnoc<A, B>(outer: seq<A>, bs: seq<B>, i: nat)
    requires i < |outer|
    ensures Pairs(outer[..i + 1], bs) == Pairs(outer[..i], bs) + Row(outer[i], bs)
  {
    assert outer[..i + 1][..i] == outer[..i];
  }

  /** Every pair of a nested walk is a candidate of it, and only those. */
  lemma {:induction false} PairsMember<A, B>(outer: seq<A>, bs: seq<B>, a: A, b: B)
    ensures (a, b) in Pairs(outer, bs) <==> a in outer && b in bs
    decreases |outer|
  {
    if outer != [] {
      var n := |outer|;
      PairsMember(outer[..n - 1], bs, a, b);
      assert outer == outer[..n - 1] + [outer[n - 1]];
      if b in bs {
        var k :| 0 <= k < |bs| && bs[k] == b;
        assert Row(outer[n - 1], bs)[k] == (outer[n - 1], b);
      }
    }
  }

  /** A finding of a nested loop comes from some pair of its candidates. */
  lemma PairsKeepMember<A, B, U>(outer: seq<A>, bs: seq<B>, hit: ((A, B)) -> seq<U>, u: U)
    ensures u in Keep(Pairs(outer, bs), hit) <==> exists a, b :: a in outer && b in bs && u in hit((a, b))
  {
    var cases := Pairs(outer, bs);
    KeepMember(cases, hit, u);
    if u in Keep(cases, hit) {
      var i :| 0 <= i < |cases| && u in hit(cases[i]);
      PairsMember(outer, bs, cases[i].0, cases[i].1);
    }
    if exists a, b :: a in outer && b in bs && u in hit((a, b)) {
      var a, b :| a in outer && b in bs && u in hit((a, b));
      PairsMember(outer, bs, a, b);
      var i :| 0 <= i < |cases| && cases[i] == (a, b);
    }
  }

  /** A nested loop none of whose pairs hits finds nothing. */
  lemma PairsKeepNothing<A, B, U>(outer: seq<A>, bs: seq<B>, hit: ((A, B)) -> seq<U>)
    requires forall a, b :: a in outer && b in bs ==> hit((a, b)) == []
    ensures Keep(Pairs(outer, bs), hit) == []
  {
    var cases := Pairs(outer, bs);
    forall i | 0 <= i < |cases| ensures hit(cases[i]) == [] {
      PairsMember(outer, bs, cases[i].0, cases[i].1);
    }
    KeepNothing(cases, hit);
  }

  // ------------------------------------------- discover_common_paths

  const COMMON_PATHS: seq<string> := [
    "/", "/#/login", "/assets", "/ftp", "/.git/config", "/package.json",
    "/api/Products", "/api/Users", "/api/Orders", "/api/Reviews", "/rest"]

  /** What candidate `p` appends (lines 43-51): `(p, status)` when the
      request got any response whose status is below 400. */
  function DiscoverHit(net: Network): string -> seq<(string, int)> {
    p =>
      match net(Request(p, []))
      case None => []
      case Some(r) => if r.status < 400 then [(p, r.status)] else []
  }

  function Discovered(net: Network): seq<(string, int)> {
    Keep(COMMON_PATHS, DiscoverHit(net))
  }

  /** `discover_common_paths()` (lines 35-52). */
  method DiscoverCommonPaths(net: Network) returns (found: seq<(string, int)>)
    ensures found == Discovered(net)
  {
    found := [];
    var i := 0;
    while i < |COMMON_PATHS|
      invariant 0 <= i <= |COMMON_PATHS|
      invariant found == Keep(COMMON_PATHS[..i], DiscoverHit(net))
    {
      var p := COMMON_PATHS[i];
      var r := net(Request(p, []));
      KeepStep(COMMON_PATHS, i, DiscoverHit(net));
      if r.None? {
        i := i + 1;
        continue;
      }
      var status := r.value.status;
      if status < 400 {
        found := found + [(p, status)];
      }
      i := i + 1;
    }
    assert COMMON_PATHS[..i] == COMMON_PATHS;
  }

  /** `(p, s)` is reported exactly when `p` is a candidate whose request got
      a response with status `s` below 400; at most one entry per candidate. */
  lemma DiscoveredMembers(net: Network, p: string, s: int)
    ensures (p, s) in Discovered(net) <==>
              p in COMMON_PATHS && net(Request(p, [])).Some? && net(Request(p, [])).value.status == s && s < 400
    ensures |Discovered(net)| <= |COMMON_PATHS|
  {
    KeepMember(COMMON_PATHS, DiscoverHit(net), (p, s));
    if (p, s) in Discovered(net) {
      var i :| 0 <= i < |COMMON_PATHS| && (p, s) in DiscoverHit(net)(COMMON_PATHS[i]);
    }
    if p in COMMON_PATHS && net(Request(p, [])).Some? && net(Request(p, [])).value.status == s && s < 400 {
      var i :| 0 <= i < |COMMON_PATHS| && COMMON_PATHS[i] == p;
      assert (p, s) in DiscoverHit(net)(COMMON_PATHS[i]);
    }
    KeepLength(COMMON_PATHS, DiscoverHit(net));
  }

  // ------------------------------------------------ test_reflected_xss

  /** A path and the one query parameter the payload goes into. */
  datatype TestPoint = TestPoint(path: string, key: string)

  const XSS_PAYLOADS: seq<string> := ["<script>alert(1)</script>", "\"><svg/onload=alert(1)>"]
  const TEST_POINTS: seq<TestPoint> := [TestPoint("/", "q"), TestPoint("/#/search", "q"), TestPoint("/api/Reviews", "comment")]

  /** What a (test point, payload) pair appends (lines 69-76): `(path,
      payload)` when the response is truthy and its body contains the payload
      verbatim. */
  function XssHit(net: Network): ((TestPoint, string)) -> seq<(string, string)> {
    (c: (TestPoint, string)) => if Reflects(net, c.0, c.1) then [(c.0.path, c.1)] else []
  }

  /** The response to the payload at the test point is truthy and echoes it. */
  predicate Reflects(net: Network, tp: TestPoint, payload: string) {
    var r := net(Request(tp.path, [(tp.key, payload)]));
    Truthy(r) && Contains(r.value.text, payload)
  }

  function XssFindings(net: Network): seq<(string, string)> {
    Keep(Pairs(TEST_POINTS, XSS_PAYLOADS), XssHit(net))
  }

  /** `test_reflected_xss()` (lines 55-77). */
  method TestReflectedXss(net: Network) returns (results: seq<(string, string)>)
    ensures results == XssFindings(net)
  {
    results := [];
    var i := 0;
    while i < |TEST_POINTS|
      invariant 0 <= i <= |TEST_POINTS|
      invariant results == Keep(Pairs(TEST_POINTS[..i], XSS_PAYLOADS), XssHit(net))
    {
      var tp := TEST_POINTS[i];
      var found := TryPayloads(net, tp);
      PairsSnoc(TEST_POINTS, XSS_PAYLOADS, i);
      KeepAppend(Pairs(TEST_POINTS[..i], XSS_PAYLOADS), Row(tp, XSS_PAYLOADS), XssHit(net));
      results := results + found;
      i := i + 1;
    }
    assert TEST_POINTS[..i] == TEST_POINTS;
  }

  /** The inner loop of lines 65-76: both payloads at one test point. */
  method TryPayloads(net: Network, tp: TestPoint) returns (found: seq<(string, string)>)
    ensures found == Keep(Row(tp, XSS_PAYLOADS), XssHit(net))
  {
    found := [];
    var j := 0;
    while j < |XSS_PAYLOADS|
      invariant 0 <= j <= |XSS_PAYLOADS|
      invariant found == Keep(Row(tp, XSS_PAYLOADS[..j]), XssHit(net))
    {
      var payload := XSS_PAYLOADS[j];
      var r := net(Request(tp.path, [(tp.key, payload)]));
      RowSnoc(tp, XSS_PAYLOADS, j);
      KeepSnoc(Row(tp, XSS_PAYLOADS[..j]), (tp, payload), XssHit(net));
      if !Truthy(r) {
        j := j + 1;
        continue;
      }
      if Contains(r.value.text, payload) {
        found := found + [(tp.path, payload)];
      }
      j := j + 1;
    }
    assert XSS_PAYLOADS[..j] == XSS_PAYLOADS;
  }

  /** `(path, payload)` is reported exactly when some test point on `path`
      echoed the payload in a truthy response. */
  lemma XssMembers(net: Network, path: string, payload: string)
    ensures (path, payload) in XssFindings(net) <==>
              exists tp :: tp in TEST_POINTS && tp.path == path && payload in XSS_PAYLOADS && Reflects(net, tp, payload)
  {
    PairsKeepMember(TEST_POINTS, XSS_PAYLOADS, XssHit(net), (path, payload));
    if (path, payload) in XssFindings(net) {
      var tp, b :| tp in TEST_POINTS && b in XSS_PAYLOADS && (path, payload) in XssHit(net)((tp, b));
      assert tp.path == path && b == payload && Reflects(net, tp, payload);
    }
    if exists tp :: tp in TEST_POINTS && tp.path == path && payload in XSS_PAYLOADS && Reflects(net, tp, payload) {
      var tp :| tp in TEST_POINTS && tp.path == path && payload in XSS_PAYLOADS && Reflects(net, tp, payload);
      assert (path, payload) in XssHit(net)((tp, payload));
    }
  }

  /** At most one entry per (test point, payload) pair: at most six. */
  lemma XssBound(net: Network)
    ensures |XssFindings(net)| <= |TEST_POINTS| * |XSS_PAYLOADS|
  {
    KeepLength(Pairs(TEST_POINTS, XSS_PAYLOADS), XssHit(net));
  }

  /** A text without the character `c` cannot contain a `payload` that has it. */
  lemma AbsentCharNotContained(text: string, payload: string, c: char)
    requires c in payload
    requires forall j :: 0 <= j < |text| ==> text[j] != c
    ensures !Contains(text, payload)
  {
    var k :| 0 <= k < |payload| && payload[k] == c;
    forall i: nat | i <= |text| ensures !OccursAt(text, payload, i) {
      if i + |payload| <= |text| {
        assert text[i..i + |payload|][k] == text[i + k];
      }
    }
  }

  lemma PayloadsHaveAngle(payload: string)
    requires payload in XSS_PAYLOADS
    ensures '<' in payload
  {
    var k := if payload == XSS_PAYLOADS[0] then 0 else 2;
    assert payload[k] == '<';
  }

  /** Both payloads contain `<`, so a server that never sends `<` back (one
      that escapes HTML) yields no XSS finding. */
  lemma EscapingServerHasNoXss(net: Network)
    requires forall q :: net(q).Some? ==> forall k :: 0 <= k < |net(q).value.text| ==> net(q).value.text[k] != '<'
    ensures XssFindings(net) == []
  {
    forall tp, payload | tp in TEST_POINTS && payload in XSS_PAYLOADS ensures XssHit(net)((tp, payload)) == [] {
      PayloadsHaveAngle(payload);
      var r := net(Request(tp.path, [(tp.key, payload)]));
      if r.Some? {
        AbsentCharNotContained(r.value.text, payload, '<');
      }
    }
    PairsKeepNothing(TEST_POINTS, XSS_PAYLOADS, XssHit(net));
  }

  // ------------------------------------------------ test_sql_injection

  const SQLI_PAYLOADS: seq<string> := ["' OR '1'='1", "' OR '1'='1' -- "]
  const SQLI_PATHS: seq<string> := ["/rest/products/search", "/api/Products", "/search", "/"]
  const LENGTH_JUMP := 200

  /** `len(base.text) if base else 0` (line 88). */
  function BaseLength(net: Network, p: string): nat {
    var base := net(Request(p, []));
    if Truthy(base) then |base.value.text| else 0
  }

  /** The rule of line 96 on the lowercased body. */
  predicate LooksLikeSqlError(body: string, baseLen: nat) {
    Contains(body, "sql") || Contains(body, "syntax error")
    || |body| - baseLen > LENGTH_JUMP || baseLen - |body| > LENGTH_JUMP
  }

  /** What a (path, payload) pair appends (lines 90-98). */
  function SqliHit(net: Network): ((string, string)) -> seq<(string, string, int)> {
    (c: (string, string)) =>
      if Injectable(net, c.0, c.1) then [(c.0, c.1, net(Request(c.0, [("q", c.1)])).value.status)] else []
  }

  /** The response to the payload on path `p` is truthy and looks like an
      SQL error against the baseline of `p`. */
  predicate Injectable(net: Network, p: string, payload: string) {
    var r := net(Request(p, [("q", payload)]));
    Truthy(r) && LooksLikeSqlError(Lower(r.value.text), BaseLength(net, p))
  }

  function SqliFindings(net: Network): seq<(string, string, int)> {
    Keep(Pairs(SQLI_PATHS, SQLI_PAYLOADS), SqliHit(net))
  }

  /** `test_sql_injection()` (lines 80-99). */
  method TestSqlInjection(net: Network) returns (findings: seq<(string, string, int)>)
    ensures findings == SqliFindings(net)
  {
    findings := [];
    var i := 0;
    while i < |SQLI_PATHS|
      invariant 0 <= i <= |SQLI_PATHS|
      invariant findings == Keep(Pairs(SQLI_PATHS[..i], SQLI_PAYLOADS), SqliHit(net))
    {
      var p := SQLI_PATHS[i];
      var base := net(Request(p, []));
      var baseLen := if Truthy(base) then |base.value.text| else 0;
      var found := TryInjections(net, p, baseLen);
      PairsSnoc(SQLI_PATHS, SQLI_PAYLOADS, i);
      KeepAppend(Pairs(SQLI_PATHS[..i], SQLI_PAYLOADS), Row(p, SQLI_PAYLOADS), SqliHit(net));
      findings := findings + found;
      i := i + 1;
    }
    assert SQLI_PATHS[..i] == SQLI_PATHS;
  }

  /** The inner loop of lines 90-98: both payloads on path `p`, whose
      baseline length is `baseLen`. */
  method TryInjections(net: Network, p: string, baseLen: nat) returns (found: seq<(string, string, int)>)
    requires baseLen == BaseLength(net, p)
    ensures found == Keep(Row(p, SQLI_PAYLOADS), SqliHit(net))
  {
    found := [];
    var j := 0;
    while j < |SQLI_PAYLOADS|
      invariant 0 <= j <= |SQLI_PAYLOADS|
      invariant found == Keep(Row(p, SQLI_PAYLOADS[..j]), SqliHit(net))
    {
      var payload := SQLI_PAYLOADS[j];
      var r := net(Request(p, [("q", payload)]));
      RowSnoc(p, SQLI_PAYLOADS, j);
      KeepSnoc(Row(p, SQLI_PAYLOADS[..j]), (p, payload), SqliHit(net));
      if !Truthy(r) {
        j := j + 1;
        continue;
      }
      var body := Lower(r.value.text);
      if LooksLikeSqlError(body, baseLen) {
        found := found + [(p, payload, r.value.status)];
      }
      j := j + 1;
    }
    assert SQLI_PAYLOADS[..j] == SQLI_PAYLOADS;
  }

  /** `(p, payload, s)` is reported exactly when a truthy response with
      status `s` to the injected request looks like an SQL error: SQL words
      in the lowercased body, or a length more than 200 away from the
      baseline's (0 when the baseline request failed or was not ok). */
  lemma SqliMembers(net: Network, p: string, payload: string, s: int)
    ensures (p, payload, s) in SqliFindings(net) <==>
              p in SQLI_PATHS && payload in SQLI_PAYLOADS && Injectable(net, p, payload) &&
              net(Request(p, [("q", payload)])).value.status == s
  {
    var cases := Pairs(SQLI_PATHS, SQLI_PAYLOADS);
    KeepMember(cases, SqliHit(net), (p, payload, s));
    if (p, payload, s) in SqliFindings(net) {
      var i :| 0 <= i < |cases| && (p, payload, s) in SqliHit(net)(cases[i]);
      PairsMember(SQLI_PATHS, SQLI_PAYLOADS, cases[i].0, cases[i].1);
    }
    if p in SQLI_PATHS && payload in SQLI_PAYLOADS && Injectable(net, p, payload) &&
       net(Request(p, [("q", payload)])).value.status == s {
      PairsMember(SQLI_PATHS, SQLI_PAYLOADS, p, payload);
      var i :| 0 <= i < |cases| && cases[i] == (p, payload);
      assert (p, payload, s) in SqliHit(net)(cases[i]);
    }
  }

  /** At most one entry per (path, payload) pair: at most eight. */
  lemma SqliBound(net: Network)
    ensures |SqliFindings(net)| <= |SQLI_PATHS| * |SQLI_PAYLOADS|
  {
    KeepLength(Pairs(SQLI_PATHS, SQLI_PAYLOADS), SqliHit(net));
  }

  // ------------------------------------------------------- test_idor

  const PRODUCTS := "/api/Products"
  const SAMPLE_LIMIT := 3
  const TYPE_ERROR := "TypeError"

  /** The id an entry contributes to `sample_ids` (line 113). */
  function IdOf(item: JItem): seq<JValue> {
    if item.JObject? && "id" in item.fields then [item.fields["id"]] else []
  }

  /** `sample_ids` (line 113), over the first three entries. */
  function SampleIds(items: seq<JItem>): seq<JValue> {
    Keep(if |items| <= SAMPLE_LIMIT then items else items[..SAMPLE_LIMIT], IdOf)
  }

  /** The ids the listing yields: none unless `/api/Products` answered 200
      with a non-empty JSON list (lines 104-113). */
  function ListedIds(net: Network): seq<JValue> {
    var r := net(Request(PRODUCTS, []));
    if Truthy(r) && r.value.status == 200 && r.value.json.JArray? && |r.value.json.items| > 0
    then SampleIds(r.value.json.items) else []
  }

  /** `(pid + 1, pid + 2, max(pid - 2, 1))` (line 115). */
  function Neighbours(pid: int): seq<int> {
    [pid + 1, pid + 2, if pid - 2 > 1 then pid - 2 else 1]
  }

  /** The index of the first id `pid + 1` raises on, or the length. */
  function FirstNonNumber(ids: seq<JValue>): (m: nat)
    ensures m <= |ids|
    ensures forall k :: 0 <= k < m ==> ids[k].JInt?
    ensures m < |ids| ==> !ids[m].JInt?
  {
    if ids == [] || !ids[0].JInt? then 0 else 1 + FirstNonNumber(ids[1..])
  }

  function Numbers(ids: seq<JValue>): (r: seq<int>)
    ensures |r| == |ids|
  {
    seq(|ids|, k requires 0 <= k < |ids| => if ids[k].JInt? then ids[k].n else 0)
  }

  lemma NumbersSnoc(ids: seq<JValue>, i: nat)
    requires i < |ids| && ids[i].JInt?
    ensures Numbers(ids[..i + 1]) == Numbers(ids[..i]) + [ids[i].n]
  {
    assert ids[..i + 1][i] == ids[i];
  }

  function ProductPath(id: int): string {
    PRODUCTS + "/" + IntToString(id)
  }

  /** What probing id `t` appends (lines 116-120): `("product", t)` on a 200. */
  function IdorHit(net: Network): int -> seq<(string, int)> {
    t => if Served(net, t) then [("product", t)] else []
  }

  /** The product request for `t` is answered truthily with status 200. */
  predicate Served(net: Network, t: int) {
    var r := net(Request(ProductPath(t), []));
    Truthy(r) && r.value.status == 200
  }

  /** The ids probed, in order: the neighbours of each listed id up to the
      first one that is not a number. */
  function ProbedIds(net: Network): seq<int> {
    var ids := ListedIds(net);
    Keep(Numbers(ids[..FirstNonNumber(ids)]), Neighbours)
  }

  /** `test_idor()`'s result: the TypeError that escapes it when a listed id
      is not a number, else the findings of the probes. */
  function IdorFindings(net: Network): Result<seq<(string, int)>, string> {
    var ids := ListedIds(net);
    if FirstNonNumber(ids) < |ids| then Failure(TYPE_ERROR)
    else Success(Keep(ProbedIds(net), IdorHit(net)))
  }

  /** Lines 104-113: the listing request and the ids taken from it. */
  method FetchSampleIds(net: Network) returns (ids: seq<JValue>)
    ensures ids == ListedIds(net)
  {
    var listing := net(Request(PRODUCTS, []));
    ids := [];
    if Truthy(listing) && listing.value.status == 200 {
      var data := listing.value.json;
      if data.JArray? && |data.items| > 0 {
        ids := SampleIds(data.items);
      }
    }
  }

  /** The inner loop of lines 115-120: probe the ids `tests`, the three
      neighbours of a listed id, in order. */
  method ProbeNeighbours(net: Network, tests: seq<int>) returns (found: seq<(string, int)>)
    ensures found == Keep(tests, IdorHit(net))
  {
    found := [];
    var j := 0;
    while j < |tests|
      invariant 0 <= j <= |tests|
      invariant found == Keep(tests[..j], IdorHit(net))
    {
      var testId := tests[j];
      var rp := net(Request(ProductPath(testId), []));
      KeepStep(tests, j, IdorHit(net));
      assert Served(net, testId) <==> Truthy(rp) && rp.value.status == 200;
      if Truthy(rp) && rp.value.status == 200 {
        found := found + [("product", testId)];
      }
      j := j + 1;
    }
    assert tests[..j] == tests;
  }

  /** `test_idor()` (lines 102-123); `probed` lists the ids requested. */
  method TestIdor(net: Network) returns (r: Result<seq<(string, int)>, string>, probed: seq<int>)
    ensures r == IdorFindings(net)
    ensures probed == ProbedIds(net)
  {
    var ids := FetchSampleIds(net);
    var m := FirstNonNumber(ids);
    var findings: seq<(string, int)> := [];
    probed := [];
    var i := 0;
    while i < |ids|
      invariant 0 <= i <= |ids| && i <= m
      invariant probed == Keep(Numbers(ids[..i]), Neighbours)
      invariant findings == Keep(probed, IdorHit(net))
    {
      if !ids[i].JInt? {
        assert i == m;
        return Failure(TYPE_ERROR), probed;
      }
      var pid := ids[i].n;
      NumbersSnoc(ids, i);
      KeepSnoc(Numbers(ids[..i]), pid, Neighbours);
      var found := ProbeNeighbours(net, Neighbours(pid));
      KeepAppend(probed, Neighbours(pid), IdorHit(net));
      probed, findings := probed + Neighbours(pid), findings + found;
      i := i + 1;
    }
    assert ids[..i] == ids[..m];
    r := Success(findings);
  }

  /** For id 5 the probes are 6, 7 and 3; the third probe never goes below 1. */
  lemma NeighboursOfFive()
    ensures Neighbours(5) == [6, 7, 3]
    ensures Neighbours(1) == [2, 3, 1]
  {
  }

  /** Three probes per listed id, from at most three entries: at most nine
      requests, and none unless the listing came back 200 with a list. */
  lemma IdorProbeBound(net: Network)
    ensures |ProbedIds(net)| == 3 * FirstNonNumber(ListedIds(net))
    ensures |ProbedIds(net)| <= 9
    ensures ProbedIds(net) != [] ==>
              var r := net(Request(PRODUCTS, []));
              r.Some? && r.value.status == 200 && r.value.json.JArray? && r.value.json.items != []
  {
    var ids := ListedIds(net);
    var xs := Numbers(ids[..FirstNonNumber(ids)]);
    KeepExactLength(xs, Neighbours, 3);
    var r := net(Request(PRODUCTS, []));
    if Truthy(r) && r.value.status == 200 && r.value.json.JArray? && |r.value.json.items| > 0 {
      var items := r.value.json.items;
      var first := if |items| <= SAMPLE_LIMIT then items else items[..SAMPLE_LIMIT];
      KeepLength(first, IdOf);
    }
  }

  lemma {:induction false} KeepExactLength<T, U>(xs: seq<T>, hit: T -> seq<U>, k: nat)
    requires forall i :: 0 <= i < |xs| ==> |hit(xs[i])| == k
    ensures |Keep(xs, hit)| == k * |xs|
    decreases |xs|
  {
    if xs != [] {
      var front := xs[..|xs| - 1];
      assert forall i :: 0 <= i < |front| ==> front[i] == xs[i];
      KeepExactLength(front, hit, k);
      assert Keep(xs, hit) == Keep(front, hit) + hit(xs[|xs| - 1]);
      assert k * |xs| == k * |front| + k by {
        assert |xs| == |front| + 1;
      }
    }
  }

  /** `("product", t)` is reported exactly when `t` was probed and answered
      200. */
  lemma IdorMembers(net: Network, t: int)
    requires IdorFindings(net).Success?
    ensures ("product", t) in IdorFindings(net).value <==>
              t in ProbedIds(net) && net(Request(ProductPath(t), [])).Some? &&
              net(Request(ProductPath(t), [])).value.status == 200
  {
    var probed := ProbedIds(net);
    KeepMember(probed, IdorHit(net), ("product", t));
    if ("product", t) in IdorFindings(net).value {
      var i :| 0 <= i < |probed| && ("product", t) in IdorHit(net)(probed[i]);
    }
    if t in probed && net(Request(ProductPath(t), [])).Some? && net(Request(ProductPath(t), [])).value.status == 200 {
      var i :| 0 <= i < |probed| && probed[i] == t;
      assert ("product", t) in IdorHit(net)(probed[i]);
    }
  }

  // ------------------------------------------- check_sensitive_files

  const SENSITIVE_PATHS: seq<string> := ["/package.json", "/config.js", "/.env", "/ftp", "/.git/config"]
  const SNIPPET_LENGTH := 300

  /** `(r.text or "")[:300].replace("\n", " ")` (line 134). */
  function Snippet(text: string): (s: string)
    ensures |s| <= SNIPPET_LENGTH
    ensures forall k :: 0 <= k < |s| ==> s[k] != '\n'
    ensures forall k :: 0 <= k < |s| ==> k < |text| && s[k] == (if text[k] == '\n' then ' ' else text[k])
  {
    ReplaceChar(Take(text, SNIPPET_LENGTH), '\n', ' ')
  }

  function SensitiveHit(net: Network): string -> seq<(string, string)> {
    p =>
      var r := net(Request(p, []));
      if Truthy(r) && r.value.status == 200 then [(p, Snippet(r.value.text))] else []
  }

  function Exposed(net: Network): seq<(string, string)> {
    Keep(SENSITIVE_PATHS, SensitiveHit(net))
  }

  /** `check_sensitive_files()` (lines 126-137). */
  method CheckSensitiveFiles(net: Network) returns (exposed: seq<(string, string)>)
    ensures exposed == Exposed(net)
  {
    exposed := [];
    var i := 0;
    while i < |SENSITIVE_PATHS|
      invariant 0 <= i <= |SENSITIVE_PATHS|
      invariant exposed == Keep(SENSITIVE_PATHS[..i], SensitiveHit(net))
    {
      var p := SENSITIVE_PATHS[i];
      var r := net(Request(p, []));
      KeepStep(SENSITIVE_PATHS, i, SensitiveHit(net));
      if Truthy(r) && r.value.status == 200 {
        var snippet := Snippet(r.value.text);
        exposed := exposed + [(p, snippet)];
      }
      i := i + 1;
    }
    assert SENSITIVE_PATHS[..i] == SENSITIVE_PATHS;
  }

  /** `(p, s)` is reported exactly when `p` answered 200 (a 200 response is
      always truthy) and `s` is the snippet of its body. */
  lemma ExposedMembers(net: Network, p: string, s: string)
    ensures (p, s) in Exposed(net) <==>
              p in SENSITIVE_PATHS && net(Request(p, [])).Some? && net(Request(p, [])).value.status == 200 &&
              s == Snippet(net(Request(p, [])).value.text)
    ensures |Exposed(net)| <= |SENSITIVE_PATHS|
  {
    KeepMember(SENSITIVE_PATHS, SensitiveHit(net), (p, s));
    if (p, s) in Exposed(net) {
      var i :| 0 <= i < |SENSITIVE_PATHS| && (p, s) in SensitiveHit(net)(SENSITIVE_PATHS[i]);
    }
    if p in SENSITIVE_PATHS && net(Request(p, [])).Some? && net(Request(p, [])).value.status == 200 &&
       s == Snippet(net(Request(p, [])).value.text) {
      var i :| 0 <= i < |SENSITIVE_PATHS| && SENSITIVE_PATHS[i] == p;
      assert (p, s) in SensitiveHit(net)(SENSITIVE_PATHS[i]);
    }
    KeepLength(SENSITIVE_PATHS, SensitiveHit(net));
  }

  // ------------------------------------------------ an unreachable target

  lemma {:induction false} KeepNothing<T, U>(xs: seq<T>, hit: T -> seq<U>)
    requires forall i :: 0 <= i < |xs| ==> hit(xs[i]) == []
    ensures Keep(xs, hit) == []
    decreases |xs|
  {
    if xs != [] {
      var front := xs[..|xs| - 1];
      assert forall i :: 0 <= i < |front| ==> front[i] == xs[i];
      KeepNothing(front, hit);
    }
  }

  /** When every request raises, `safe_get` returns None each time and no
      check reports anything; the IDOR check probes nothing. */
  lemma UnreachableTargetFindsNothing(net: Network)
    requires forall q :: net(q) == None
    ensures Discovered(net) == [] && XssFindings(net) == [] && SqliFindings(net) == []
    ensures IdorFindings(net) == Success([]) && ProbedIds(net) == []
    ensures Exposed(net) == []
  {
    OfflineDiscover(net);
    OfflineXss(net);
    OfflineSqli(net);
    OfflineSensitive(net);
    assert ListedIds(net) == [];
    assert ProbedIds(net) == Keep([], Neighbours);
  }

  lemma OfflineDiscover(net: Network)
    requires forall q :: net(q) == None
    ensures Discovered(net) == []
  {
    forall i | 0 <= i < |COMMON_PATHS| ensures DiscoverHit(net)(COMMON_PATHS[i]) == [] {
      assert net(Request(COMMON_PATHS[i], [])) == None;
    }
    KeepNothing(COMMON_PATHS, DiscoverHit(net));
  }

  lemma OfflineSensitive(net: Network)
    requires forall q :: net(q) == None
    ensures Exposed(net) == []
  {
    forall i | 0 <= i < |SENSITIVE_PATHS| ensures SensitiveHit(net)(SENSITIVE_PATHS[i]) == [] {
      assert net(Request(SENSITIVE_PATHS[i], [])) == None;
    }
    KeepNothing(SENSITIVE_PATHS, SensitiveHit(net));
  }

  lemma OfflineXss(net: Network)
    requires forall q :: net(q) == None
    ensures XssFindings(net) == []
  {
    var xss := Pairs(TEST_POINTS, XSS_PAYLOADS);
    forall i | 0 <= i < |xss| ensures XssHit(net)(xss[i]) == [] {
      var c := xss[i];
      assert net(Request(c.0.path, [(c.0.key, c.1)])) == None;
    }
    KeepNothing(xss, XssHit(net));
  }

  lemma OfflineSqli(net: Network)
    requires forall q :: net(q) == None
    ensures SqliFindings(net) == []
  {
    var cases := Pairs(SQLI_PATHS, SQLI_PAYLOADS);
    forall i | 0 <= i < |cases| ensures SqliHit(net)(cases[i]) == [] {
      var c := cases[i];
      assert net(Request(c.0, [("q", c.1)])) == None;
    }
    KeepNothing(cases, SqliHit(net));
  }
}
