/** `safe_filename` of web_ui_boot_save.py: turns a target URL into the token
    that names its text reports. The pipeline is lowercase, remove every
    `http://` / `https://` match, collapse each run of characters outside
    `a-z 0-9 . _ -` into one `_`, strip `_` at both ends, keep 200 characters. */
module SafeName {
  import opened Text

  const MAX_NAME := 200

  /** A character the name may keep: the class `[a-z0-9._-]`. */
  predicate Allowed(c: char) {
    ('a' <= c <= 'z') || ('0' <= c <= '9') || c == '.' || c == '_' || c == '-'
  }

  predicate AllAllowed(s: string) {
    forall i :: 0 <= i < |s| ==> Allowed(s[i])
  }

  /** `re.sub(r"https?://", "", s)`: the scan tries a match at each position
      from the left and resumes after a match; `s?` is greedy. */
  function StripScheme(s: string): (r: string)
    decreases |s|
  {
    if "https://" <= s then StripScheme(s[8..])
    else if "http://" <= s then StripScheme(s[7..])
    else if s == [] then []
    else [s[0]] + StripScheme(s[1..])
  }

  /** Drops the leading run of characters that are not allowed. */
  function DropDisallowed(s: string): (r: string)
    ensures |r| <= |s| && r == s[|s| - |r|..]
    ensures r == [] || Allowed(r[0])
  {
    if s != [] && !Allowed(s[0]) then
      var r := DropDisallowed(s[1..]);
      assert s[1..][|s| - 1 - |r|..] == s[|s| - |r|..];
      r
    else s
  }

  /** `re.sub(r"[^a-z0-9._-]+", "_", s)`: each maximal run of characters that
      are not allowed becomes a single `_`. */
  function Collapse(s: string): (r: string)
    ensures AllAllowed(r)
    decreases |s|
  {
    if s == [] then []
    else if Allowed(s[0]) then [s[0]] + Collapse(s[1..])
    else "_" + Collapse(DropDisallowed(s[1..]))
  }

  /** `s.lstrip("_")`. */
  function TrimLeft(s: string): (r: string)
    ensures |r| <= |s| && r == s[|s| - |r|..]
    ensures r == [] || r[0] != '_'
  {
    if s != [] && s[0] == '_' then
      var r := TrimLeft(s[1..]);
      assert s[1..][|s| - 1 - |r|..] == s[|s| - |r|..];
      r
    else s
  }

  /** `s.rstrip("_")`. */
  function TrimRight(s: string): (r: string)
    ensures r <= s
    ensures r == [] || r[|r| - 1] != '_'
  {
    if s != [] && s[|s| - 1] == '_' then TrimRight(s[..|s| - 1]) else s
  }

  /** `s.strip("_")`. */
  function Strip(s: string): (r: string)
    ensures r == [] || (r[0] != '_' && r[|r| - 1] != '_')
  {
    var t := TrimLeft(s);
    var r := TrimRight(t);
    assert r != [] ==> r[0] == t[0];
    r
  }

  /** `safe_filename(s)`: at most 200 characters, never starting with `_`. */
  function SafeFilename(s: string): (r: string)
    ensures |r| <= MAX_NAME
    ensures r == [] || r[0] != '_'
  {
    var st := Strip(Collapse(StripScheme(Lower(s))));
    assert Take(st, MAX_NAME) != [] ==> Take(st, MAX_NAME)[0] == st[0];
    Take(st, MAX_NAME)
  }

  lemma {:induction false} SubAllowed(s: string, r: string)
    requires AllAllowed(s)
    requires r <= s || (|r| <= |s| && r == s[|s| - |r|..])
    ensures AllAllowed(r)
  {
    forall i | 0 <= i < |r| ensures Allowed(r[i]) {
      if r <= s { assert r[i] == s[i]; } else { assert r[i] == s[|s| - |r| + i]; }
    }
  }

  /** The name uses only `a-z 0-9 . _ -`, is at most 200 characters long, never
      starts with `_`, and ends with `_` only when the 200-character cut falls
      just after one. */
  lemma SafeFilenameShape(s: string)
    ensures AllAllowed(SafeFilename(s))
    ensures |SafeFilename(s)| <= MAX_NAME
    ensures SafeFilename(s) == [] || SafeFilename(s)[0] != '_'
    ensures SafeFilename(s) != [] && SafeFilename(s)[|SafeFilename(s)| - 1] == '_' ==>
              |SafeFilename(s)| == MAX_NAME && |Strip(Collapse(StripScheme(Lower(s))))| > MAX_NAME
  {
    var c := Collapse(StripScheme(Lower(s)));
    var t := TrimLeft(c);
    var st := Strip(c);
    var r := SafeFilename(s);
    assert r == Take(st, MAX_NAME);
    SubAllowed(c, t);
    SubAllowed(t, st);
    SubAllowed(st, r);
    if r != [] {
      assert r[0] == st[0];
    }
    if |st| <= MAX_NAME {
      assert r == st;
    }
  }

  /** Text lacking `:` (or lacking `/`) holds no scheme, so the scheme pass
      leaves it alone. */
  lemma {:induction false} StripSchemeNoScheme(s: string, c: char)
    requires c == ':' || c == '/'
    requires forall i :: 0 <= i < |s| ==> s[i] != c
    ensures StripScheme(s) == s
  {
    if s != [] {
      assert |s| < 8 || (s[..8][5] != c && s[..8][6] != c);
      assert |s| < 7 || (s[..7][4] != c && s[..7][5] != c);
      StripSchemeNoScheme(s[1..], c);
    }
  }

  /** Characters that are already allowed pass through the collapse unchanged. */
  lemma {:induction false} CollapseAllowedPrefix(a: string, b: string)
    requires AllAllowed(a)
    ensures Collapse(a + b) == a + Collapse(b)
  {
    if a != [] {
      var ab := a + b;
      assert ab[0] == a[0] && Allowed(ab[0]);
      assert ab[1..] == a[1..] + b;
      assert Collapse(ab) == [a[0]] + Collapse(ab[1..]);
      CollapseAllowedPrefix(a[1..], b);
    } else {
      assert a + b == b;
    }
  }

  lemma Regroup<T>(x: seq<T>, y: seq<T>, z: seq<T>)
    ensures x + y + z == x + (y + z)
  {
  }

  /** Text of allowed characters only is its own collapse. */
  lemma CollapseAllowed(a: string)
    requires AllAllowed(a)
    ensures Collapse(a) == a
  {
    CollapseAllowedPrefix(a, []);
    assert a + [] == a;
  }

  /** A name that is already safe (allowed characters only, no `_` at either
      end, at most 200 characters) is its own safe name. */
  lemma SafeFilenameFixedPoint(r: string)
    requires AllAllowed(r) && |r| <= MAX_NAME
    requires r == [] || (r[0] != '_' && r[|r| - 1] != '_')
    ensures SafeFilename(r) == r
  {
    assert Lower(r) == r;
    StripSchemeNoScheme(r, ':');
    CollapseAllowed(r);
  }

  /** Sanitising twice gives the same token, except when the 200-character
      cut of the first pass left a trailing `_`, which the second pass strips. */
  lemma SafeFilenameIdempotent(s: string)
    requires SafeFilename(s) == [] || SafeFilename(s)[|SafeFilename(s)| - 1] != '_'
    ensures SafeFilename(SafeFilename(s)) == SafeFilename(s)
  {
    SafeFilenameShape(s);
    SafeFilenameFixedPoint(SafeFilename(s));
  }

  /** Lowercasing commutes with dropping a prefix. */
  lemma LowerSuffix(s: string, k: nat)
    requires k <= |s|
    ensures Lower(s[k..]) == Lower(s)[k..]
  {
  }

  lemma SafeFilenameOfSuffix(s: string, k: nat)
    requires k <= |s|
    ensures SafeFilename(s[k..]) == Take(Strip(Collapse(StripScheme(Lower(s)[k..]))), MAX_NAME)
  {
    LowerSuffix(s, k);
  }

  /** The length of the scheme the scheme pass removes at the front of `low`. */
  function SchemeLength(low: string): nat {
    if "https://" <= low then 8 else if "http://" <= low then 7 else 0
  }

  lemma SchemesDisjoint(low: string)
    ensures !("https://" <= low && "http://" <= low)
  {
    assert |low| < 8 || low[..8][4] == low[..7][4];
  }

  /** A leading scheme, in any letter case, does not reach the name:
      `safe_filename("HTTP://x") == safe_filename("x")`. */
  lemma SchemeIsRemoved(s: string)
    requires "http://" <= Lower(s) || "https://" <= Lower(s)
    ensures "https://" <= Lower(s) ==> SafeFilename(s) == SafeFilename(s[8..])
    ensures "http://" <= Lower(s) ==> SafeFilename(s) == SafeFilename(s[7..])
  {
    var low := Lower(s);
    SchemesDisjoint(low);
    var k := SchemeLength(low);
    assert StripScheme(low) == StripScheme(low[k..]);
    SafeFilenameOfSuffix(s, k);
  }

  /** Text that is followed by an `h` starts with a scheme exactly when the
      longer text does: no scheme can begin in the text and run into the `h`. */
  lemma {:induction false} SchemeFrontWithin(a: string, rest: string)
    requires a != [] && rest != [] && rest[0] == 'h'
    ensures ("https://" <= a + rest) == ("https://" <= a)
    ensures ("http://" <= a + rest) == ("http://" <= a)
    ensures SchemeLength(a + rest) == SchemeLength(a)
  {
    var s := a + rest;
    assert s[|a|] == 'h';
    if |a| >= 8 {
      assert s[..8] == a[..8] && s[..7] == a[..7];
    } else if |a| == 7 {
      assert s[..7] == a;
      assert |s| < 8 || s[..8][7] == s[7];
    } else {
      assert |s| < 8 || s[..8][|a|] == s[|a|];
      assert |s| < 7 || s[..7][|a|] == s[|a|];
    }
  }

  /** A scheme at the front is removed whole. */
  lemma {:induction false} SchemeAtFront(scheme: string, b: string)
    requires scheme == "http://" || scheme == "https://"
    ensures StripScheme(scheme + b) == StripScheme(b)
  {
    var s := scheme + b;
    SchemesDisjoint(s);
    assert scheme <= s;
    assert s[|scheme|..] == b;
  }

  /** The scheme pass also removes a scheme in the middle of the text: the
      text before it goes through the pass on its own, and so does the text
      after it. */
  lemma SchemeRemovedAnywhere(a: string, scheme: string, b: string)
    requires scheme == "http://" || scheme == "https://"
    ensures StripScheme(a + scheme + b) == StripScheme(a) + StripScheme(b)
  {
    Regroup(a, scheme, b);
    PassSplitsBeforeH(a, scheme + b);
    SchemeAtFront(scheme, b);
  }

  /** No step of the scheme pass reaches from text into an `h` after it, so
      the pass over both is the pass over each. */
  lemma {:induction false} PassSplitsBeforeH(a: string, rest: string)
    requires rest != [] && rest[0] == 'h'
    ensures StripScheme(a + rest) == StripScheme(a) + StripScheme(rest)
    decreases |a|
  {
    if a == [] {
      assert a + rest == rest;
    } else {
      FrontStep(a);
      StepBeforeScheme(a, rest);
      var k := SchemeLength(a);
      if k == 0 {
        PassSplitsBeforeH(a[1..], rest);
        Regroup([a[0]], StripScheme(a[1..]), StripScheme(rest));
      } else {
        PassSplitsBeforeH(a[k..], rest);
      }
    }
  }

  /** One step of the scheme pass: either a scheme is dropped or the first
      character is kept. */
  lemma FrontStep(s: string)
    requires s != []
    ensures SchemeLength(s) <= |s|
    ensures SchemeLength(s) == 0 ==> StripScheme(s) == [s[0]] + StripScheme(s[1..])
    ensures SchemeLength(s) != 0 ==> StripScheme(s) == StripScheme(s[SchemeLength(s)..])
  {
    if "https://" <= s {
      assert SchemeLength(s) == 8;
      StripHttps(s);
    } else if "http://" <= s {
      assert SchemeLength(s) == 7;
      StripLeadingHttp(s, s[7..]);
    } else {
      assert SchemeLength(s) == 0;
      StripKeeps(s);
    }
  }

  /** One step of the scheme pass over text followed by an `h` stays inside
      that text. */
  lemma StepBeforeScheme(a: string, rest: string)
    requires a != [] && rest != [] && rest[0] == 'h'
    ensures SchemeLength(a) <= |a|
    ensures SchemeLength(a) == 0 ==> StripScheme(a + rest) == [a[0]] + StripScheme(a[1..] + rest)
    ensures SchemeLength(a) != 0 ==> StripScheme(a + rest) == StripScheme(a[SchemeLength(a)..] + rest)
  {
    FrontStep(a);
    SchemeFrontWithin(a, rest);
    if SchemeLength(a) == 0 {
      KeepBeforeScheme(a, rest);
    } else {
      SkipBeforeScheme(a, rest, SchemeLength(a));
    }
  }

  lemma KeepBeforeScheme(a: string, rest: string)
    requires a != [] && SchemeLength(a + rest) == 0
    ensures StripScheme(a + rest) == [a[0]] + StripScheme(a[1..] + rest)
  {
    var s := a + rest;
    FrontStep(s);
    assert s[1..] == a[1..] + rest;
  }

  lemma SkipBeforeScheme(a: string, rest: string, k: nat)
    requires 0 < k <= |a| && SchemeLength(a + rest) == k
    ensures StripScheme(a + rest) == StripScheme(a[k..] + rest)
  {
    var s := a + rest;
    FrontStep(s);
    assert s[k..] == a[k..] + rest;
  }

  lemma StripHttps(s: string)
    requires "https://" <= s
    ensures StripScheme(s) == StripScheme(s[8..])
  {
  }

  lemma StripKeeps(s: string)
    requires s != [] && !("https://" <= s) && !("http://" <= s)
    ensures StripScheme(s) == [s[0]] + StripScheme(s[1..])
  {
  }

  /** A scheme in any letter case anywhere in the target does not reach the
      name: the lowercased text on either side of it goes through the scheme
      pass on its own, and the two results are joined before the rest of the
      pipeline. */
  lemma {:induction false} SchemeRemovedFromName(a: string, scheme: string, b: string)
    requires Lower(scheme) == "http://" || Lower(scheme) == "https://"
    ensures SafeFilename(a + scheme + b) == Take(Strip(Collapse(StripScheme(Lower(a)) + StripScheme(Lower(b)))), MAX_NAME)
  {
    assert Lower(a + scheme + b) == Lower(a) + Lower(scheme) + Lower(b);
    SchemeRemovedAnywhere(Lower(a), Lower(scheme), Lower(b));
  }

  /** Chains the four stages of the pipeline, each established separately. */
  lemma Stages(s: string, low: string, noScheme: string, collapsed: string, stripped: string)
    requires Lower(s) == low && StripScheme(low) == noScheme
    requires Collapse(noScheme) == collapsed && Strip(collapsed) == stripped
    ensures SafeFilename(s) == Take(stripped, MAX_NAME)
  {
  }

  lemma StripLeadingHttp(low: string, rest: string)
    requires "http://" <= low && low[7..] == rest
    ensures StripScheme(low) == StripScheme(rest)
  {
    assert low[4] == ':';
  }

  /** A run of disallowed characters is dropped up to the first allowed one. */
  lemma {:induction false} DropRun(g: string, b: string)
    requires forall i :: 0 <= i < |g| ==> !Allowed(g[i])
    requires b == [] || Allowed(b[0])
    ensures DropDisallowed(g + b) == b
  {
    if g == [] {
      assert g + b == b;
    } else {
      assert (g + b)[0] == g[0];
      assert (g + b)[1..] == g[1..] + b;
      DropRun(g[1..], b);
    }
  }

  /** A run of one or more disallowed characters, up to an allowed one,
      becomes exactly one `_`. */
  lemma {:induction false} CollapseGap(g: string, b: string)
    requires g != [] && (forall i :: 0 <= i < |g| ==> !Allowed(g[i]))
    requires b == [] || Allowed(b[0])
    ensures Collapse(g + b) == "_" + Collapse(b)
  {
    var c := g + b;
    assert c[0] == g[0];
    assert c[1..] == g[1..] + b;
    DropRun(g[1..], b);
  }

  /** So a maximal run of disallowed characters after an allowed stretch
      becomes exactly one `_`, and the stretch is kept. */
  lemma {:induction false} CollapseRun(a: string, g: string, b: string)
    requires AllAllowed(a) && g != [] && (forall i :: 0 <= i < |g| ==> !Allowed(g[i]))
    requires b == [] || Allowed(b[0])
    ensures Collapse(a + g + b) == a + "_" + Collapse(b)
  {
    var rest, cb := g + b, Collapse(b);
    CollapseGap(g, b);
    CollapseAllowedPrefix(a, rest);
    Regroup(a, g, b);
    Regroup(a, "_", cb);
  }

  predicate Underscores(p: string) {
    forall i :: 0 <= i < |p| ==> p[i] == '_'
  }

  /** `lstrip("_")` drops underscores only. */
  lemma {:induction false} TrimLeftDropsUnderscores(s: string)
    ensures Underscores(s[..|s| - |TrimLeft(s)|])
  {
    if s != [] && s[0] == '_' {
      TrimLeftDropsUnderscores(s[1..]);
      var n := |s| - |TrimLeft(s)|;
      assert TrimLeft(s) == TrimLeft(s[1..]);
      assert s[..n] == [s[0]] + s[1..][..n - 1];
    }
  }

  /** `rstrip("_")` drops underscores only. */
  lemma {:induction false} TrimRightDropsUnderscores(s: string)
    ensures Underscores(s[|TrimRight(s)|..])
  {
    if s != [] && s[|s| - 1] == '_' {
      var init := s[..|s| - 1];
      TrimRightDropsUnderscores(init);
      var n := |TrimRight(s)|;
      assert TrimRight(s) == TrimRight(init);
      assert s[n..] == init[n..] + [s[|s| - 1]];
    }
  }

  /** `strip("_")` keeps the middle of its input: the input is the result with
      a run of `_` on each side, and the result has no `_` at either end,
      which together pin the result down. */
  lemma {:induction false} StripKeepsMiddle(s: string)
    ensures exists p, q :: Underscores(p) && Underscores(q) && s == p + Strip(s) + q
    ensures Strip(s) == [] || (Strip(s)[0] != '_' && Strip(s)[|Strip(s)| - 1] != '_')
  {
    StripIsTrims(s);
    var t := TrimLeft(s);
    var r := TrimRight(t);
    TrimLeftDropsUnderscores(s);
    TrimRightDropsUnderscores(t);
    var p, q := s[..|s| - |t|], t[|r|..];
    SplitAtSuffix(s, t);
    SplitAtPrefix(t, r);
    assert s == p + (r + q);
    Framed(s, p, r, q);
  }

  lemma StripIsTrims(s: string)
    ensures Strip(s) == TrimRight(TrimLeft(s))
  {
  }

  lemma Framed(s: string, p: string, r: string, q: string)
    requires Underscores(p) && Underscores(q) && s == p + (r + q)
    ensures exists p', q' :: Underscores(p') && Underscores(q') && s == p' + r + q'
  {
    assert s == p + r + q;
  }

  lemma SplitAtSuffix(s: string, t: string)
    requires |t| <= |s| && t == s[|s| - |t|..]
    ensures s == s[..|s| - |t|] + t
  {
  }

  lemma SplitAtPrefix(t: string, r: string)
    requires r <= t
    ensures t == r + t[|r|..]
  {
    assert r == t[..|r|];
  }

  /** Text with no `_` at either end is left alone by `strip("_")`. */
  lemma StripNoEdges(a: string)
    requires a == [] || (a[0] != '_' && a[|a| - 1] != '_')
    ensures Strip(a) == a
  {
  }

  lemma StripOneTrailing(a: string)
    requires a != [] && a[0] != '_' && a[|a| - 1] != '_'
    ensures Strip(a + "_") == a
  {
    var t := a + "_";
    assert t[0] == a[0];
    assert TrimLeft(t) == t;
    assert t[|t| - 1] == '_' && t[..|t| - 1] == a;
    assert TrimRight(t) == TrimRight(a);
    StripNoEdges(a);
  }

  lemma ExampleLower(url: string)
    requires url == "http://Test.Com/"
    ensures Lower(url) == "http://test.com/"
  {
  }

  lemma ExampleScheme(low: string, rest: string)
    requires low == "http://test.com/" && rest == "test.com/"
    ensures StripScheme(low) == rest
  {
    StripLeadingHttp(low, rest);
    NoColonInExample(rest);
    StripSchemeNoScheme(rest, ':');
  }

  lemma NoColonInExample(rest: string)
    requires rest == "test.com/"
    ensures forall i :: 0 <= i < |rest| ==> rest[i] != ':'
  {
  }

  lemma ExampleCollapse(rest: string, token: string)
    requires rest == "test.com/" && token == "test.com_"
    ensures Collapse(rest) == token
  {
    var host, slash, empty := "test.com", "/", "";
    assert rest == host + slash + empty;
    CollapseRun(host, slash, empty);
  }

  lemma ExampleTokenFacts(a: string, t: string)
    requires a == "test.com" && t == "test.com_"
    ensures t == a + "_" && a != [] && a[0] != '_' && a[|a| - 1] != '_'
  {
  }

  lemma ExampleStrip(t: string, a: string)
    requires t == "test.com_" && a == "test.com"
    ensures Strip(t) == a
  {
    ExampleTokenFacts(a, t);
    StripOneTrailing(a);
  }

  /** `safe_filename("http://Test.Com/") == "test.com"`. */
  lemma SafeFilenameExample(url: string)
    requires url == "http://Test.Com/"
    ensures SafeFilename(url) == "test.com"
  {
    ExampleLower(url);
    ExampleScheme("http://test.com/", "test.com/");
    ExampleCollapse("test.com/", "test.com_");
    ExampleStrip("test.com_", "test.com");
    Stages(url, "http://test.com/", "test.com/", "test.com_", "test.com");
  }

  lemma DefaultLower(url: string)
    requires url == "http://localhost:3000"
    ensures Lower(url) == url
  {
  }

  lemma DefaultScheme(url: string, rest: string)
    requires url == "http://localhost:3000" && rest == "localhost:3000"
    ensures StripScheme(url) == rest
  {
    assert url[..7] == "http://";
    assert url[7..] == rest;
    StripLeadingHttp(url, rest);
    NoSlashInDefault(rest);
    StripSchemeNoScheme(rest, '/');
  }

  lemma NoSlashInDefault(rest: string)
    requires rest == "localhost:3000"
    ensures forall i :: 0 <= i < |rest| ==> rest[i] != '/'
  {
  }

  lemma DefaultCollapse(rest: string, token: string)
    requires rest == "localhost:3000" && token == "localhost_3000"
    ensures Collapse(rest) == token
  {
    var host, colon, port := "localhost", ":", "3000";
    DefaultPieces(rest, token, host, colon, port);
    CollapseRun(host, colon, port);
    CollapseAllowed(port);
  }

  /** The default target after the scheme pass: `localhost`, one `:`, `3000`. */
  lemma DefaultPieces(rest: string, token: string, host: string, colon: string, port: string)
    requires rest == "localhost:3000" && token == "localhost_3000"
    requires host == "localhost" && colon == ":" && port == "3000"
    ensures rest == host + colon + port && token == host + "_" + port
    ensures AllAllowed(host) && AllAllowed(port) && !Allowed(colon[0]) && |colon| == 1
  {
  }

  lemma DefaultStrip()
    ensures Strip("localhost_3000") == "localhost_3000"
  {
    StripNoEdges("localhost_3000");
  }

  /** The default target's token: `safe_filename("http://localhost:3000")`. */
  lemma SafeFilenameDefault(url: string)
    requires url == "http://localhost:3000"
    ensures SafeFilename(url) == "localhost_3000"
  {
    DefaultLower(url);
    DefaultScheme(url, "localhost:3000");
    DefaultCollapse("localhost:3000", "localhost_3000");
    DefaultStrip();
    Stages(url, url, "localhost:3000", "localhost_3000", "localhost_3000");
  }
}
