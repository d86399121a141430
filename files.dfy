/** The file-system facts the dashboards consult, passed in as values: a
    directory listing with modification times, glob matching of a
    `<prefix>*<suffix>` pattern, and the "newest match" choice that both
    dashboards make by sorting the glob result on mtime, newest first. */
module Files {
  import opened Wrappers

  /** One file of a directory, in the order the directory listing gives. */
  datatype DirEntry = DirEntry(name: string, mtime: int)

  /** The name matches the glob pattern `prefix + "*" + suffix`: the star
      takes any run of characters, possibly empty, so prefix and suffix may
      not overlap. */
  predicate GlobMatch(name: string, prefix: string, suffix: string) {
    |prefix| + |suffix| <= |name| && prefix <= name && name[|name| - |suffix|..] == suffix
  }

  /** `prefix*suffix` as a glob: the name is the prefix, any middle, and the
      suffix, with prefix and suffix not overlapping. */
  lemma GlobMatchMeaning(name: string, prefix: string, suffix: string)
    ensures GlobMatch(name, prefix, suffix) <==> exists mid :: name == prefix + mid + suffix
  {
    if GlobMatch(name, prefix, suffix) {
      var mid := name[|prefix|..|name| - |suffix|];
      assert name == prefix + mid + suffix;
    }
    if exists mid :: name == prefix + mid + suffix {
      var mid :| name == prefix + mid + suffix;
      assert name[..|prefix|] == prefix;
      assert name[|name| - |suffix|..] == suffix;
    }
  }

  /** `name in [e.name for e in dir]`, i.e. `Path(name).exists()`. */
  predicate Exists(dir: seq<DirEntry>, name: string) {
    exists i :: 0 <= i < |dir| && dir[i].name == name
  }

  /** Some file of the listing matches the pattern (`glob.glob(...)` is not empty). */
  predicate AnyMatch(dir: seq<DirEntry>, prefix: string, suffix: string) {
    exists i :: 0 <= i < |dir| && GlobMatch(dir[i].name, prefix, suffix)
  }

  /** Entry `k` is what `sorted(glob(pattern), key=mtime, reverse=True)[0]`
      picks: it matches, no match is newer, and every match listed before it
      is strictly older (the sort is stable). */
  predicate IsNewest(dir: seq<DirEntry>, prefix: string, suffix: string, k: nat) {
    && k < |dir|
    && GlobMatch(dir[k].name, prefix, suffix)
    && (forall j :: 0 <= j < |dir| && GlobMatch(dir[j].name, prefix, suffix) ==> dir[j].mtime <= dir[k].mtime)
    && (forall j :: 0 <= j < k && GlobMatch(dir[j].name, prefix, suffix) ==> dir[j].mtime < dir[k].mtime)
  }

  /** `sorted(glob(pattern), key=mtime, reverse=True)[0]`, or None when nothing
      matches. Python's sort is stable also with `reverse=True`, so among the
      matches with the greatest mtime the first in listing order wins. */
  method NewestMatching(dir: seq<DirEntry>, prefix: string, suffix: string) returns (k: Option<nat>)
    ensures k.None? <==> !AnyMatch(dir, prefix, suffix)
    ensures k.Some? ==> IsNewest(dir, prefix, suffix, k.value)
  {
    k := None;
    var i := 0;
    while i < |dir|
      invariant 0 <= i <= |dir|
      invariant k.None? <==> forall j :: 0 <= j < i ==> !GlobMatch(dir[j].name, prefix, suffix)
      invariant k.Some? ==> k.value < i && GlobMatch(dir[k.value].name, prefix, suffix)
      invariant k.Some? ==> forall j :: 0 <= j < i && GlobMatch(dir[j].name, prefix, suffix) ==>
                              dir[j].mtime <= dir[k.value].mtime
      invariant k.Some? ==> forall j :: 0 <= j < k.value && GlobMatch(dir[j].name, prefix, suffix) ==>
                              dir[j].mtime < dir[k.value].mtime
    {
      if GlobMatch(dir[i].name, prefix, suffix) && (k.None? || dir[k.value].mtime < dir[i].mtime) {
        k := Some(i);
      }
      i := i + 1;
    }
  }

  /** The listing without the files named `name`. */
  function Remove(dir: seq<DirEntry>, name: string): (r: seq<DirEntry>)
    ensures forall x :: x in r ==> x in dir && x.name != name
    ensures forall x :: x in dir && x.name != name ==> x in r
  {
    if dir == [] then []
    else if dir[0].name == name then Remove(dir[1..], name)
    else [dir[0]] + Remove(dir[1..], name)
  }

  /** The listing after `open(name, "w")`: a file of that name is created, or
      truncated when it already existed, and its mtime becomes `e.mtime`. */
  function Put(dir: seq<DirEntry>, e: DirEntry): (r: seq<DirEntry>)
    ensures r != [] && r[|r| - 1] == e
    ensures forall x :: x in r ==> x == e || (x in dir && x.name != e.name)
    ensures forall x :: x in dir && x.name != e.name ==> x in r
  {
    Remove(dir, e.name) + [e]
  }

  /** The file put into the listing exists, and it matches every pattern its
      name matches. */
  lemma PutExists(dir: seq<DirEntry>, e: DirEntry, prefix: string, suffix: string)
    ensures Exists(Put(dir, e), e.name)
    ensures GlobMatch(e.name, prefix, suffix) ==> AnyMatch(Put(dir, e), prefix, suffix)
  {
    var r := Put(dir, e);
    assert r[|r| - 1].name == e.name;
  }

  /** Putting a file whose name does not match a pattern into a listing
      where nothing matches it leaves nothing matching it. */
  lemma PutNoMatch(dir: seq<DirEntry>, e: DirEntry, prefix: string, suffix: string)
    requires !AnyMatch(dir, prefix, suffix) && !GlobMatch(e.name, prefix, suffix)
    ensures !AnyMatch(Put(dir, e), prefix, suffix)
  {
    var r := Put(dir, e);
    forall i | 0 <= i < |r| ensures !GlobMatch(r[i].name, prefix, suffix) {
      assert r[i] in r;
      if r[i] != e {
        var k :| 0 <= k < |dir| && dir[k] == r[i];
      }
    }
  }
}
