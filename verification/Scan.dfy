/** cmd/teslausb/main.go, scanFilesForArchive: the list of paths a session works on. */
module Scan {
  import opened Common

  /** One of the four clip directories: whether it is enabled, and its names, if it can be read. */
  datatype Dir = Dir(path: string, enabled: bool, names: Option<seq<string>>)

  predicate SlashFree(s: string) { '/' !in s }

  /** What a directory listing guarantees: names are distinct and contain no slash. */
  predicate Lawful(d: Dir) {
    d.names.Some? ==> Distinct(d.names.value) && forall n :: n in d.names.value ==> SlashFree(n)
  }

  function Paths(path: string, names: seq<string>): (r: seq<string>)
    ensures |r| == |names| && forall i :: 0 <= i < |names| ==> r[i] == path + "/" + names[i]
  {
    if names == [] then [] else [path + "/" + names[0]] + Paths(path, names[1..])
  }

  function Listing(d: Dir): seq<string> {
    if d.enabled && d.names.Some? then Paths(d.path, d.names.value) else []
  }

  function ScanAll(dirs: seq<Dir>): seq<string> {
    if dirs == [] then [] else Listing(dirs[0]) + ScanAll(dirs[1..])
  }

  lemma ScanAppend(dirs: seq<Dir>, d: Dir)
    ensures ScanAll(dirs + [d]) == ScanAll(dirs) + Listing(d)
  {
    hide Listing;
    if dirs == [] {
      assert [d][1..] == [] && dirs + [d] == [d];
      assert ScanAll([d]) == Listing(d) + ScanAll([]);
    } else {
      assert (dirs + [d])[1..] == dirs[1..] + [d];
      ScanAppend(dirs[1..], d);
      assert Listing(dirs[0]) + (ScanAll(dirs[1..]) + Listing(d)) == ScanAll(dirs) + Listing(d);
    }
  }

  /** The source's loop: disabled, absent and unreadable directories are skipped. */
  method ScanFilesForArchive(dirs: seq<Dir>) returns (files: seq<string>)
    ensures files == ScanAll(dirs)
  {
    files := [];
    for k := 0 to |dirs|
      invariant files == ScanAll(dirs[..k])
    {
      assert dirs[..k + 1] == dirs[..k] + [dirs[k]];
      ScanAppend(dirs[..k], dirs[k]);
      if !dirs[k].enabled || dirs[k].names.None? {
        continue;
      }
      files := AppendAll(files, dirs[k].path, dirs[k].names.value);
    }
    assert dirs[..|dirs|] == dirs;
  }

  /** The inner loop, over one directory's entries. */
  method AppendAll(before: seq<string>, path: string, names: seq<string>) returns (files: seq<string>)
    ensures files == before + Paths(path, names)
  {
    files := before;
    for i := 0 to |names|
      invariant files == before + Paths(path, names)[..i]
    {
      files := files + [path + "/" + names[i]];
    }
  }

  // ------------------------------------------------------------ what a scan lists

  /** The directory has this entry, under this path. */
  ghost predicate Has(path: string, names: Option<seq<string>>, f: string) {
    names.Some? && exists n :: n in names.value && f == path + "/" + n
  }

  /** How many entries a scan has to list of a directory. */
  function Entries(d: Dir): nat { if d.enabled && d.names.Some? then |d.names.value| else 0 }

  function AllEntries(dirs: seq<Dir>): nat {
    if dirs == [] then 0 else Entries(dirs[0]) + AllEntries(dirs[1..])
  }

  /** A scan lists every entry of every enabled, readable directory, and nothing else. */
  lemma {:induction false} ScanLists(dirs: seq<Dir>, f: string)
    ensures f in ScanAll(dirs) <==> exists d :: d in dirs && d.enabled && Has(d.path, d.names, f)
    decreases |dirs|
  {
    if dirs != [] {
      var d := dirs[0];
      assert dirs == [d] + dirs[1..];
      ScanLists(dirs[1..], f);
      ListingLists(d, f);
    }
  }

  lemma ListingLists(d: Dir, f: string)
    ensures f in Listing(d) <==> d.enabled && Has(d.path, d.names, f)
  {
    if d.enabled && d.names.Some? {
      var names := d.names.value;
      if f in Paths(d.path, names) {
        var i :| 0 <= i < |names| && Paths(d.path, names)[i] == f;
        assert names[i] in names;
      }
      if Has(d.path, d.names, f) {
        var n :| n in names && f == d.path + "/" + n;
        var i :| 0 <= i < |names| && names[i] == n;
        assert Paths(d.path, names)[i] == f;
      }
    }
  }

  /** And each where it belongs: after the entries of the directories before, in the order of its own. */
  lemma {:induction false} ScanIsInOrder(dirs: seq<Dir>, i: nat, k: nat)
    requires i < |dirs| && k < Entries(dirs[i])
    ensures |ScanAll(dirs)| == AllEntries(dirs) && AllEntries(dirs[..i]) + k < AllEntries(dirs)
    ensures ScanAll(dirs)[AllEntries(dirs[..i]) + k] == dirs[i].path + "/" + dirs[i].names.value[k]
    decreases |dirs|
  {
    hide Listing, Entries;
    ListingIsInOrder(dirs[0], k);
    ScanIsLong(dirs);
    if i > 0 {
      ScanIsInOrder(dirs[1..], i - 1, k);
      assert dirs[..i][1..] == dirs[1..][..i - 1];
    } else {
      assert dirs[..0] == [];
    }
  }

  lemma ListingIsInOrder(d: Dir, k: nat)
    ensures |Listing(d)| == Entries(d) && (k < Entries(d) ==> Listing(d)[k] == d.path + "/" + d.names.value[k])
  {
  }

  lemma ScanIsLong(dirs: seq<Dir>)
    ensures |ScanAll(dirs)| == AllEntries(dirs)
  {
  }

  // ------------------------------------------------------------ and that it lists it once

  lemma LastSlash(a: string, x: string)
    requires SlashFree(x)
    ensures var s := a + "/" + x;
      s[|a|] == '/' && forall i :: |a| < i < |s| ==> s[i] != '/'
  {
    var s := a + "/" + x;
    forall i | |a| < i < |s| ensures s[i] != '/' {
      assert s[i] == x[i - |a| - 1] && x[i - |a| - 1] in x;
    }
  }

  /** A path whose last component has no slash determines its directory and its name. */
  lemma SplitsUniquely(a: string, x: string, b: string, y: string)
    requires SlashFree(x) && SlashFree(y) && a + "/" + x == b + "/" + y
    ensures a == b && x == y
  {
    var s, t := a + "/" + x, b + "/" + y;
    LastSlash(a, x);
    LastSlash(b, y);
    assert |a| == |b|;
    assert a == s[..|a|] && b == t[..|b|];
    assert x == s[|a| + 1..] && y == t[|b| + 1..];
  }

  lemma PathsApart(a: string, x: string, b: string, y: string)
    requires SlashFree(x) && SlashFree(y) && (a != b || x != y)
    ensures a + "/" + x != b + "/" + y
  {
    if a + "/" + x == b + "/" + y { SplitsUniquely(a, x, b, y); }
  }

  lemma ListingsApart(d: Dir, e: Dir, f: string)
    requires Lawful(d) && Lawful(e) && d.path != e.path && f in Listing(d)
    ensures f !in Listing(e)
  {
    var i :| 0 <= i < |Listing(d)| && Listing(d)[i] == f;
    var x := d.names.value[i];
    assert x in d.names.value;
    forall k | 0 <= k < |Listing(e)| ensures Listing(e)[k] != f {
      assert e.names.value[k] in e.names.value;
      PathsApart(d.path, x, e.path, e.names.value[k]);
    }
  }

  predicate AllLawful(dirs: seq<Dir>) { forall d :: d in dirs ==> Lawful(d) }

  lemma ListingApartFromRest(d: Dir, dirs: seq<Dir>, f: string)
    requires Lawful(d) && AllLawful(dirs) && (forall e :: e in dirs ==> e.path != d.path) && f in Listing(d)
    ensures f !in ScanAll(dirs)
  {
    if dirs != [] {
      assert dirs[0] in dirs;
      ListingsApart(d, dirs[0], f);
      forall e | e in dirs[1..] ensures e in dirs { }
      ListingApartFromRest(d, dirs[1..], f);
    }
  }

  /** The scan never lists a path twice, as long as the directories have different paths - which is what
      the at-most-once law of the ledger rests on. */
  lemma {:induction false} ScanIsDistinct(dirs: seq<Dir>)
    requires AllLawful(dirs) && forall i, j :: 0 <= i < j < |dirs| ==> dirs[i].path != dirs[j].path
    ensures Distinct(ScanAll(dirs))
  {
    if dirs != [] {
      var d, rest := dirs[0], dirs[1..];
      assert d in dirs && Lawful(d);
      forall e | e in rest ensures e in dirs && e.path != d.path {
        var k :| 0 <= k < |rest| && rest[k] == e;
        assert dirs[k + 1] == e;
      }
      ScanIsDistinct(rest);
      ListingIsDistinct(d);
      forall f | f in Listing(d) ensures f !in ScanAll(rest) {
        ListingApartFromRest(d, rest, f);
      }
      ApartIsDistinct(Listing(d), ScanAll(rest));
    }
  }

  lemma ListingIsDistinct(d: Dir)
    requires Lawful(d)
    ensures Distinct(Listing(d))
  {
    if d.enabled && d.names.Some? {
      var names, s := d.names.value, Listing(d);
      forall i, j | 0 <= i < j < |s| ensures s[i] != s[j] {
        assert names[i] in names && names[j] in names;
        PathsApart(d.path, names[i], d.path, names[j]);
      }
    }
  }

  lemma ApartIsDistinct(a: seq<string>, b: seq<string>)
    requires Distinct(a) && Distinct(b) && forall f :: f in a ==> f !in b
    ensures Distinct(a + b)
  {
    var s := a + b;
    forall i, j | 0 <= i < j < |s| ensures s[i] != s[j] {
      if i < |a| && |a| <= j {
        assert s[i] in a && s[j] == b[j - |a|] && s[j] in b;
      }
    }
  }
}
