/**
 * The migration that renames code-execution files sharing a filename within one conversation,
 * so that the unique partial index on (filename, conversationId, context, tenantId) can build.
 */
module FileDuplicates {
  import opened Common
  import opened Decimals

  // ----- Names -----

  /** Where the path ends when trailing slashes are ignored. */
  function TrimmedLength(path: string): (r: nat)
    ensures r <= |path|
  {
    if path == "" then 0
    else if path[|path| - 1] != '/' then |path|
    else TrimmedLength(path[..|path| - 1])
  }

  /** Where the last component of `path[..end]` starts. */
  function ComponentStart(path: string, end: nat): (r: nat)
    requires end <= |path|
    ensures r <= end
  {
    if end == 0 || path[end - 1] == '/' then end else ComponentStart(path, end - 1)
  }

  /** The last dot of `path[start..end]`, or `end` when there is none. */
  function LastDot(path: string, start: nat, end: nat): (r: nat)
    requires start <= end <= |path|
    ensures start <= r <= end
  {
    if start == end then end
    else if path[end - 1] == '.' then end - 1
    else
      var r := LastDot(path, start, end - 1);
      if r == end - 1 then end else r
  }

  lemma {:induction false} TrimmedLengthFacts(path: string)
    ensures var r := TrimmedLength(path);
      && (r > 0 ==> path[r - 1] != '/')
      && (forall i :: r <= i < |path| ==> path[i] == '/')
  {
    if path != "" && path[|path| - 1] == '/' {
      var front := path[..|path| - 1];
      TrimmedLengthFacts(front);
      assert forall i :: 0 <= i < |front| ==> front[i] == path[i];
    }
  }

  lemma {:induction false} ComponentStartFacts(path: string, end: nat)
    requires end <= |path|
    ensures var r := ComponentStart(path, end);
      && (r > 0 ==> path[r - 1] == '/')
      && (forall i :: r <= i < end ==> path[i] != '/')
  {
    if end > 0 && path[end - 1] != '/' {
      ComponentStartFacts(path, end - 1);
    }
  }

  lemma {:induction false} LastDotFacts(path: string, start: nat, end: nat)
    requires start <= end <= |path|
    ensures var r := LastDot(path, start, end);
      && (r < end ==> path[r] == '.')
      && (forall i :: r < i < end ==> path[i] != '.')
      && (r == end ==> forall i :: start <= i < end ==> path[i] != '.')
  {
    if start < end && path[end - 1] != '.' {
      LastDotFacts(path, start, end - 1);
    }
  }

  /** `path.extname` on POSIX: the last dot of the last component and what follows it, unless
      that dot opens the component (a dotfile) or the component is `..`. */
  function Extname(path: string): string {
    var end := TrimmedLength(path);
    var start := ComponentStart(path, end);
    var dot := LastDot(path, start, end);
    if dot == end || dot == start then ""
    else if dot == end - 1 && dot == start + 1 && path[start] == '.' then ""
    else seq(end - dot, i requires 0 <= i < end - dot => path[dot + i])
  }

  function Base(filename: string): string {
    if |Extname(filename)| <= |filename| then filename[..|filename| - |Extname(filename)|] else filename
  }

  /** `report.png` -> `report (2).png`. */
  function SuffixFilename(filename: string, n: nat): string {
    Base(filename) + " (" + Decimal(n) + ")" + Extname(filename)
  }

  /** An extension is empty, or one dot followed by neither dots nor slashes. */
  lemma ExtnameShape(path: string)
    ensures var ext := Extname(path);
      ext != "" ==>
        && ext[0] == '.'
        && (forall i :: 0 < i < |ext| ==> ext[i] != '.')
        && (forall i :: 0 <= i < |ext| ==> ext[i] != '/')
        && |ext| < |path|
  {
    var end := TrimmedLength(path);
    ComponentStartFacts(path, end);
    LastDotFacts(path, ComponentStart(path, end), end);
  }

  /** A last component with a dot that follows an ordinary character has an extension. */
  lemma ExtnameOfDotted(path: string, q: nat)
    requires 0 < q < |path| && path[q] == '.' && path[q - 1] != '.' && path[q - 1] != '/'
    requires forall i :: q < i < |path| ==> path[i] != '.' && path[i] != '/'
    ensures Extname(path) == path[q..]
  {
    var end := TrimmedLength(path);
    assert end == |path| by {
      assert path[|path| - 1] != '/';
    }
    var start := ComponentStart(path, end);
    ComponentStartFacts(path, end);
    LastDotFacts(path, start, end);
    assert start <= q - 1;
    assert LastDot(path, start, end) == q;
  }

  /** The characters of a suffixed name, piece by piece. */
  lemma Pieces(b: string, d: string, e: string)
    ensures var r := b + " (" + d + ")" + e;
      && |r| == |b| + |d| + 3 + |e|
      && (forall j :: 0 <= j < |b| ==> r[j] == b[j])
      && r[|b|] == ' ' && r[|b| + 1] == '('
      && (forall j :: |b| + 2 <= j < |b| + 2 + |d| ==> r[j] == d[j - |b| - 2])
      && r[|b| + 2 + |d|] == ')'
      && (forall j :: |b| + 3 + |d| <= j < |r| ==> r[j] == e[j - |b| - 3 - |d|])
  {
  }

  /** With an extension, the last dot of a suffixed name is where the extension starts. */
  lemma LastDotOfSuffixed(f: string, n: nat)
    requires Extname(f) != ""
    ensures var r, q := SuffixFilename(f, n), |SuffixFilename(f, n)| - |Extname(f)|;
      && 0 < q < |r| && r[q] == '.' && r[q - 1] == ')'
      && (forall j :: q < j < |r| ==> r[j] != '.' && r[j] != '/')
      && r[q..] == Extname(f)
  {
    ExtnameShape(f);
    Pieces(Base(f), Decimal(n), Extname(f));
  }

  /** Without one, no dot follows the name. */
  lemma NoDotAfterName(f: string, n: nat)
    requires Extname(f) == ""
    ensures var r := SuffixFilename(f, n);
      && |f| < |r|
      && (forall j :: 0 <= j < |f| ==> r[j] == f[j])
      && (forall j :: |f| <= j < |r| ==> r[j] != '.')
  {
    DecimalDigits(n);
    Pieces(Base(f), Decimal(n), "");
    assert SuffixFilename(f, n) == Base(f) + " (" + Decimal(n) + ")" + "";
  }

  lemma DottedName(f: string, r: string, q: nat)
    requires |f| < |r| && 0 < q < |r|
    requires forall j :: 0 <= j < |f| ==> r[j] == f[j]
    requires forall j :: |f| <= j < |r| ==> r[j] != '.'
    requires r[q] == '.' && r[q - 1] == ')'
    requires forall j :: q < j < |r| ==> r[j] != '.' && r[j] != '/'
    ensures Extname(f) != ""
  {
    assert q < |f| && f[q] == '.' && f[q - 1] == ')';
    ExtnameOfDotted(f, q);
  }

  /** A suffixed name without extension is never a suffixed name with one. */
  lemma BothHaveExtensions(f: string, g: string, n: nat, m: nat)
    requires SuffixFilename(f, n) == SuffixFilename(g, m) && Extname(g) != ""
    ensures Extname(f) != ""
  {
    if Extname(f) == "" {
      NoDotAfterName(f, n);
      LastDotOfSuffixed(g, m);
      DottedName(f, SuffixFilename(g, m), |SuffixFilename(g, m)| - |Extname(g)|);
    }
  }

  /** Two suffixed names that are equal have equal extensions. */
  lemma SuffixedExtensions(f: string, g: string, n: nat, m: nat)
    requires SuffixFilename(f, n) == SuffixFilename(g, m)
    ensures Extname(f) == Extname(g)
  {
    if Extname(f) != "" {
      BothHaveExtensions(g, f, m, n);
      LastDotOfSuffixed(f, n);
      LastDotOfSuffixed(g, m);
    } else if Extname(g) != "" {
      BothHaveExtensions(f, g, n, m);
    }
  }

  lemma DigitsAtTheEnd(a: string, d: string)
    requires forall i :: 0 <= i < |d| ==> IsDigit(d[i])
    ensures var x := a + " (" + d;
      && |x| == |a| + 2 + |d| && x[|x| - |d| - 1] == '('
      && (forall j :: |x| - |d| <= j < |x| ==> IsDigit(x[j]))
      && x[..|a|] == a && x[|a| + 2..] == d
  {
  }

  /** Where a run of digits after an opening parenthesis begins is determined by the string. */
  lemma CutDigits(a: string, d: string, b: string, e: string)
    requires a + " (" + d == b + " (" + e
    requires forall i :: 0 <= i < |d| ==> IsDigit(d[i])
    requires forall i :: 0 <= i < |e| ==> IsDigit(e[i])
    ensures a == b && d == e
  {
    DigitsAtTheEnd(a, d);
    DigitsAtTheEnd(b, e);
  }

  /** The two names split into the same base and extension. */
  predicate SameSplit(f: string, g: string) {
    Base(f) == Base(g) && Extname(f) == Extname(g)
  }

  /** Suffixed names collide exactly when the numbers are equal and the names split alike. */
  lemma SuffixesCollideIff(f: string, g: string, n: nat, m: nat)
    ensures SuffixFilename(f, n) == SuffixFilename(g, m) <==> n == m && SameSplit(f, g)
  {
    if SuffixFilename(f, n) == SuffixFilename(g, m) {
      SuffixedExtensions(f, g, n, m);
      DecimalDigits(n);
      DecimalDigits(m);
      var x, y, tail := Base(f) + " (" + Decimal(n), Base(g) + " (" + Decimal(m), ")" + Extname(f);
      assert SuffixFilename(f, n) == x + tail && SuffixFilename(g, m) == y + tail;
      assert |x| == |y| && (x + tail)[..|x|] == x && (y + tail)[..|y|] == y;
      CutDigits(Base(f), Decimal(n), Base(g), Decimal(m));
      DecimalInjective(n, m);
    }
  }

  /** Unless one of them ends in a slash, different names split differently: base and
      extension give the name back, also without extension and for dotfiles. */
  lemma SplitRestoresName(f: string)
    requires f == "" || f[|f| - 1] != '/'
    ensures Base(f) + Extname(f) == f
  {
    assert TrimmedLength(f) == |f|;
  }

  /** The suffix is jointly injective in name and number on names that do not end in a slash. */
  lemma SuffixInjective(f: string, g: string, n: nat, m: nat)
    requires f == "" || f[|f| - 1] != '/'
    requires g == "" || g[|g| - 1] != '/'
    ensures SuffixFilename(f, n) == SuffixFilename(g, m) <==> f == g && n == m
  {
    SuffixesCollideIff(f, g, n, m);
    SplitRestoresName(f);
    SplitRestoresName(g);
  }

  /** It is not injective in general: a trailing slash is cut off instead of the extension. */
  lemma TrailingSlashCollides()
    ensures "a.b/" != "a..b"
    ensures SuffixFilename("a.b/", 1) == SuffixFilename("a..b", 1)
  {
    var f, g := "a.b/", "a..b";
    assert TrimmedLength(f) == 3 by {
      assert f[..3][2] == 'b';
    }
    ComponentStartFacts(f, 3);
    LastDotFacts(f, 0, 3);
    assert ComponentStart(f, 3) == 0;
    assert LastDot(f, 0, 3) == 1;
    assert f[1..3] == ".b" && Extname(f) == ".b";
    assert TrimmedLength(g) == 4;
    ComponentStartFacts(g, 4);
    LastDotFacts(g, 0, 4);
    assert ComponentStart(g, 4) == 0;
    assert LastDot(g, 0, 4) == 2;
    assert g[2..4] == ".b" && Extname(g) == ".b";
    assert f[..2] == "a." && g[..2] == "a.";
  }

  // ----- The next free name -----

  function Candidates(filename: string, n: nat): set<string> {
    set i: nat | 1 <= i <= n :: SuffixFilename(filename, i)
  }

  lemma {:induction false} CandidatesAreDistinct(filename: string, n: nat)
    ensures |Candidates(filename, n)| == n
  {
    if n == 0 {
      assert Candidates(filename, 0) == {};
    } else {
      CandidatesAreDistinct(filename, n - 1);
      forall i: nat | 1 <= i <= n - 1 ensures SuffixFilename(filename, i) != SuffixFilename(filename, n) {
        SuffixesCollideIff(filename, filename, i, n);
      }
      assert Candidates(filename, n) == Candidates(filename, n - 1) + {SuffixFilename(filename, n)};
    }
  }

  /** A finite set cannot hold more suffixed names than it has members. */
  lemma TakenRunsOut(filename: string, taken: set<string>, n: nat)
    requires forall i: nat :: 1 <= i <= n ==> SuffixFilename(filename, i) in taken
    ensures n <= |taken|
  {
    CandidatesAreDistinct(filename, n);
    SubsetSize(Candidates(filename, n), taken);
  }

  /** The smallest free suffix from `n` on. */
  function FreeIndex(filename: string, taken: set<string>, n: nat): (r: nat)
    requires n >= 1 && forall i: nat :: 1 <= i < n ==> SuffixFilename(filename, i) in taken
    ensures r >= n && SuffixFilename(filename, r) !in taken
    ensures forall i: nat :: 1 <= i < r ==> SuffixFilename(filename, i) in taken
    decreases |taken| + 1 - n
  {
    TakenRunsOut(filename, taken, n - 1);
    if SuffixFilename(filename, n) !in taken then n else FreeIndex(filename, taken, n + 1)
  }

  function FreeName(filename: string, taken: set<string>): string {
    SuffixFilename(filename, FreeIndex(filename, taken, 1))
  }

  /** The choice depends only on which suffixed names of the family are taken. */
  lemma SameFamilySameIndex(f: string, g: string, s: set<string>, t: set<string>)
    requires forall n: nat :: n >= 1 ==> (SuffixFilename(f, n) in s <==> SuffixFilename(g, n) in t)
    ensures FreeIndex(f, s, 1) == FreeIndex(g, t, 1)
  {
    var a, b := FreeIndex(f, s, 1), FreeIndex(g, t, 1);
    assert SuffixFilename(f, a) !in s && SuffixFilename(g, b) !in t;
    assert SuffixFilename(g, a) !in t && SuffixFilename(f, b) !in s;
  }

  class NameSet {
    var names: set<string>

    constructor (names: set<string>)
      ensures this.names == names
    {
      this.names := names;
    }

    /** Ends for every finite set, with the smallest free suffix, and takes only that name. */
    method NextAvailableName(filename: string) returns (candidate: string)
      modifies this
      ensures candidate == FreeName(filename, old(names))
      ensures candidate !in old(names) && names == old(names) + {candidate}
    {
      var n := 1;
      candidate := SuffixFilename(filename, n);
      while candidate in names
        invariant n >= 1 && candidate == SuffixFilename(filename, n) && names == old(names)
        invariant forall i: nat :: 1 <= i < n ==> SuffixFilename(filename, i) in names
        decreases |names| + 1 - n
      {
        TakenRunsOut(filename, names, n);
        n := n + 1;
        candidate := SuffixFilename(filename, n);
      }
      assert FreeIndex(filename, names, 1) == n;
      names := names + {candidate};
    }
  }

  // ----- The collection -----

  type Id = nat

  datatype File = File(
    fileId: string,
    filename: string,
    conversation: Option<string>,
    tenant: Option<string>,
    isCode: bool,
    createdAt: Option<int>,
    rest: string)

  /** The `files` collection by `_id`. A missing and a `null` conversation are both `None`. */
  type Db = map<Id, File>

  datatype Key = Key(filename: string, conversation: Option<string>, tenant: Option<string>)

  function KeyOf(f: File): Key {
    Key(f.filename, f.conversation, f.tenant)
  }

  predicate SameScope(a: Key, b: Key) {
    a.conversation == b.conversation && a.tenant == b.tenant
  }

  predicate HasKey(db: Db, id: Id, key: Key) {
    id in db && db[id].isCode && KeyOf(db[id]) == key
  }

  /** Every filename used by a code file in the key's scope. */
  function ScopeNames(db: Db, key: Key): set<string> {
    set id | id in db && db[id].isCode && SameScope(KeyOf(db[id]), key) :: db[id].filename
  }

  /** What the unique partial index demands. */
  predicate Unique(db: Db) {
    forall a, b :: a in db && b in db && a != b && db[a].isCode && db[b].isCode ==> KeyOf(db[a]) != KeyOf(db[b])
  }

  datatype GroupFile = GroupFile(id: Id, fileId: string, createdAt: Option<int>)

  datatype Group = Group(key: Key, files: seq<GroupFile>)

  ghost predicate GroupOf(db: Db, g: Group) {
    && |g.files| > 1
    && (forall i :: 0 <= i < |g.files| ==>
          && HasKey(db, g.files[i].id, g.key)
          && g.files[i].fileId == db[g.files[i].id].fileId
          && g.files[i].createdAt == db[g.files[i].id].createdAt)
    && DistinctIds(g.files)
    && (forall id :: HasKey(db, id, g.key) ==> exists i :: 0 <= i < |g.files| && g.files[i].id == id)
  }

  /** What the aggregation returns: the keys that occur more than once, in any order, each with
      all its files in any order. */
  ghost predicate IsGrouping(db: Db, groups: seq<Group>) {
    && (forall i :: 0 <= i < |groups| ==> GroupOf(db, groups[i]))
    && (forall i, j :: 0 <= i < j < |groups| ==> groups[i].key != groups[j].key)
    && (forall a, b :: a in db && b in db && a != b && db[a].isCode && db[b].isCode && KeyOf(db[a]) == KeyOf(db[b])
          ==> exists i :: 0 <= i < |groups| && groups[i].key == KeyOf(db[a]))
  }

  // ----- Newest first -----

  function Time(f: GroupFile): int {
    f.createdAt.GetOr(0)
  }

  function InsertNewest(sorted: seq<GroupFile>, f: GroupFile): seq<GroupFile> {
    if sorted == [] || Time(sorted[|sorted| - 1]) >= Time(f) then sorted + [f]
    else InsertNewest(sorted[..|sorted| - 1], f) + [sorted[|sorted| - 1]]
  }

  /** The stable sort by descending creation time. */
  function SortNewest(files: seq<GroupFile>): seq<GroupFile> {
    if files == [] then [] else InsertNewest(SortNewest(files[..|files| - 1]), files[|files| - 1])
  }

  predicate NewestFirst(files: seq<GroupFile>) {
    forall i, j :: 0 <= i < j < |files| ==> Time(files[i]) >= Time(files[j])
  }

  predicate DistinctIds(files: seq<GroupFile>) {
    forall i, j :: 0 <= i < j < |files| ==> files[i].id != files[j].id
  }

  lemma {:induction false} InsertMembers(sorted: seq<GroupFile>, f: GroupFile, x: GroupFile)
    ensures x in InsertNewest(sorted, f) <==> x in sorted || x == f
  {
    if !(sorted == [] || Time(sorted[|sorted| - 1]) >= Time(f)) {
      var n := |sorted| - 1;
      InsertMembers(sorted[..n], f, x);
      assert sorted == sorted[..n] + [sorted[n]];
    }
  }

  lemma {:induction false} InsertFacts(sorted: seq<GroupFile>, f: GroupFile)
    requires NewestFirst(sorted) && DistinctIds(sorted)
    requires forall x :: x in sorted ==> x.id != f.id
    ensures NewestFirst(InsertNewest(sorted, f)) && DistinctIds(InsertNewest(sorted, f))
  {
    if !(sorted == [] || Time(sorted[|sorted| - 1]) >= Time(f)) {
      var n := |sorted| - 1;
      InsertFacts(sorted[..n], f);
      var front, last := InsertNewest(sorted[..n], f), sorted[n];
      forall i | 0 <= i < |front| ensures Time(front[i]) >= Time(last) && front[i].id != last.id {
        InsertMembers(sorted[..n], f, front[i]);
        if front[i] != f {
          var k :| 0 <= k < n && sorted[..n][k] == front[i];
          assert sorted[k] == front[i];
        }
      }
    }
  }

  /** Sorting keeps every file, once, and puts the newest first. */
  lemma {:induction false} SortFacts(files: seq<GroupFile>)
    requires DistinctIds(files)
    ensures |SortNewest(files)| == |files|
    ensures forall x :: x in SortNewest(files) <==> x in files
    ensures NewestFirst(SortNewest(files)) && DistinctIds(SortNewest(files))
  {
    if files != [] {
      var n := |files| - 1;
      SortFacts(files[..n]);
      assert files == files[..n] + [files[n]];
      forall x | x in SortNewest(files[..n]) ensures x.id != files[n].id {
        assert x in files[..n];
      }
      InsertFacts(SortNewest(files[..n]), files[n]);
      InsertLength(SortNewest(files[..n]), files[n]);
      forall x ensures x in SortNewest(files) <==> x in files {
        InsertMembers(SortNewest(files[..n]), files[n], x);
      }
    }
  }

  lemma {:induction false} SortLength(files: seq<GroupFile>)
    ensures |SortNewest(files)| == |files|
  {
    if files != [] {
      SortLength(files[..|files| - 1]);
      InsertLength(SortNewest(files[..|files| - 1]), files[|files| - 1]);
    }
  }

  lemma {:induction false} InsertLength(sorted: seq<GroupFile>, f: GroupFile)
    ensures |InsertNewest(sorted, f)| == |sorted| + 1
  {
    if !(sorted == [] || Time(sorted[|sorted| - 1]) >= Time(f)) {
      InsertLength(sorted[..|sorted| - 1], f);
    }
  }

  function Kept(g: Group): GroupFile
    requires |g.files| > 0
  {
    SortLength(g.files);
    SortNewest(g.files)[0]
  }

  function Stale(g: Group): seq<GroupFile>
    requires |g.files| > 0
  {
    SortLength(g.files);
    var ordered := SortNewest(g.files);
    seq(|ordered| - 1, i requires 0 <= i < |ordered| - 1 => ordered[i + 1])
  }

  lemma SplitIds(g: Group, id: Id)
    requires |g.files| > 0 && DistinctIds(g.files)
    requires exists i :: 0 <= i < |g.files| && g.files[i].id == id
    ensures id == Kept(g).id || IsStale(g, id)
  {
    SortFacts(g.files);
    var i :| 0 <= i < |g.files| && g.files[i].id == id;
    var s := SortNewest(g.files);
    assert g.files[i] in s;
    var k :| 0 <= k < |s| && s[k] == g.files[i];
    if k > 0 {
      assert Stale(g)[k - 1].id == id;
    }
  }

  /** Kept and stale files are the group's files, each once, and the kept one is a newest. */
  lemma SplitMembers(g: Group)
    requires |g.files| > 0 && DistinctIds(g.files)
    ensures |Stale(g)| == |g.files| - 1
    ensures Kept(g) in g.files
    ensures forall i :: 0 <= i < |Stale(g)| ==> Stale(g)[i] in g.files && Stale(g)[i].id != Kept(g).id
    ensures DistinctIds(Stale(g))
    ensures forall i :: 0 <= i < |g.files| ==> Time(Kept(g)) >= Time(g.files[i])
  {
    SortFacts(g.files);
    var s := SortNewest(g.files);
    assert s[0] in s;
    forall i | 0 <= i < |Stale(g)| ensures Stale(g)[i] in g.files && Stale(g)[i].id != Kept(g).id {
      assert Stale(g)[i] == s[i + 1];
      assert s[i + 1] in s;
    }
    forall i | 0 <= i < |g.files| ensures Time(Kept(g)) >= Time(g.files[i]) {
      assert g.files[i] in s;
    }
  }

  /** The kept file is a newest one; the others are stale, each once. */
  lemma GroupSplits(db: Db, g: Group)
    requires GroupOf(db, g)
    ensures |Stale(g)| == |g.files| - 1
    ensures HasKey(db, Kept(g).id, g.key)
    ensures forall i :: 0 <= i < |Stale(g)| ==> HasKey(db, Stale(g)[i].id, g.key) && Stale(g)[i].id != Kept(g).id
    ensures DistinctIds(Stale(g))
    ensures forall id :: HasKey(db, id, g.key) ==> id == Kept(g).id || IsStale(g, id)
    ensures forall i :: 0 <= i < |g.files| ==> Time(Kept(g)) >= Time(g.files[i])
  {
    SplitMembers(g);
    forall id | HasKey(db, id, g.key) ensures id == Kept(g).id || IsStale(g, id) {
      SplitIds(g, id);
    }
  }

  predicate IsStale(g: Group, id: Id) {
    |g.files| > 0 && exists i :: 0 <= i < |Stale(g)| && Stale(g)[i].id == id
  }

  // ----- Planning and applying a group's renames -----

  datatype Rename = Rename(id: Id, fileId: string, to: string)

  function Targets(renames: seq<Rename>): set<string> {
    if renames == [] then {}
    else Targets(renames[..|renames| - 1]) + {renames[|renames| - 1].to}
  }

  lemma {:induction false} TargetsHas(renames: seq<Rename>, i: nat)
    requires i < |renames|
    ensures renames[i].to in Targets(renames)
  {
    var n := |renames| - 1;
    if i < n {
      assert renames[..n][i] == renames[i];
      TargetsHas(renames[..n], i);
    }
  }

  lemma TargetsSnoc(renames: seq<Rename>, r: Rename)
    ensures Targets(renames + [r]) == Targets(renames) + {r.to}
  {
    assert (renames + [r])[..|renames|] == renames;
  }

  /** Replacement names for the stale copies, one after the other: `taken` holds the names of
      the scope and grows by every name handed out. */
  function AssignNames(filename: string, stale: seq<GroupFile>, taken: set<string>): (r: seq<Rename>)
    ensures |r| == |stale|
  {
    if stale == [] then []
    else
      var n := |stale| - 1;
      var before := AssignNames(filename, stale[..n], taken);
      before + [Rename(stale[n].id, stale[n].fileId, FreeName(filename, taken + Targets(before)))]
  }

  function GroupPlan(db: Db, g: Group): seq<Rename>
    requires |g.files| > 0
  {
    AssignNames(g.key.filename, Stale(g), ScopeNames(db, g.key))
  }

  function Renamed(db: Db, r: Rename): Db {
    if r.id in db then db[r.id := db[r.id].(filename := r.to)] else db
  }

  function ApplyRenames(db: Db, renames: seq<Rename>): Db {
    if renames == [] then db
    else Renamed(ApplyRenames(db, renames[..|renames| - 1]), renames[|renames| - 1])
  }

  ghost predicate IsSuffixed(name: string, filename: string) {
    exists n: nat :: n >= 1 && name == SuffixFilename(filename, n)
  }

  /** Every name handed out is a suffixed name, free before, and handed out once. */
  ghost predicate Assigned(rs: seq<Rename>, stale: seq<GroupFile>, filename: string, taken: set<string>) {
    && |rs| == |stale|
    && (forall i :: 0 <= i < |rs| ==>
          rs[i].id == stale[i].id && rs[i].to !in taken && IsSuffixed(rs[i].to, filename))
    && (forall i, j :: 0 <= i < j < |rs| ==> rs[i].to != rs[j].to)
  }

  lemma AssignedSnoc(
    rs: seq<Rename>, r: Rename, stale: seq<GroupFile>, f: GroupFile, filename: string, taken: set<string>)
    requires Assigned(rs, stale, filename, taken)
    requires r.id == f.id && r.to !in taken && r.to !in Targets(rs) && IsSuffixed(r.to, filename)
    ensures Assigned(rs + [r], stale + [f], filename, taken)
  {
    forall i | 0 <= i < |rs| ensures rs[i].to != r.to {
      TargetsHas(rs, i);
    }
  }

  lemma {:induction false} AssignFacts(filename: string, stale: seq<GroupFile>, taken: set<string>)
    ensures Assigned(AssignNames(filename, stale, taken), stale, filename, taken)
  {
    if stale != [] {
      var n := |stale| - 1;
      AssignFacts(filename, stale[..n], taken);
      var before := AssignNames(filename, stale[..n], taken);
      var used := taken + Targets(before);
      assert FreeName(filename, used) == SuffixFilename(filename, FreeIndex(filename, used, 1));
      assert stale == stale[..n] + [stale[n]];
      AssignedSnoc(
        before, Rename(stale[n].id, stale[n].fileId, FreeName(filename, used)),
        stale[..n], stale[n], filename, taken);
    }
  }

  /** Adding names outside the filename's family to `taken` changes no assignment. */
  lemma {:induction false} AssignIgnoresOtherFamilies(
    filename: string, stale: seq<GroupFile>, s: set<string>, t: set<string>)
    requires forall n: nat :: n >= 1 ==> (SuffixFilename(filename, n) in s <==> SuffixFilename(filename, n) in t)
    ensures AssignNames(filename, stale, s) == AssignNames(filename, stale, t)
  {
    if stale != [] {
      var n := |stale| - 1;
      AssignIgnoresOtherFamilies(filename, stale[..n], s, t);
      var before := AssignNames(filename, stale[..n], s);
      SameFamilySameIndex(filename, filename, s + Targets(before), t + Targets(before));
    }
  }

  predicate DistinctTargets(renames: seq<Rename>) {
    && (forall i, j :: 0 <= i < j < |renames| ==> renames[i].id != renames[j].id)
    && (forall i, j :: 0 <= i < j < |renames| ==> renames[i].to != renames[j].to)
  }

  predicate Renames(renames: seq<Rename>, id: Id) {
    exists i :: 0 <= i < |renames| && renames[i].id == id
  }

  /** Applying renames changes the filename of exactly the named records, and nothing else. */
  lemma {:induction false} ApplyFacts(db: Db, renames: seq<Rename>)
    requires DistinctTargets(renames)
    ensures ApplyRenames(db, renames).Keys == db.Keys
    ensures forall id :: id in db && !Renames(renames, id) ==> ApplyRenames(db, renames)[id] == db[id]
    ensures forall i :: 0 <= i < |renames| && renames[i].id in db ==>
      ApplyRenames(db, renames)[renames[i].id] == db[renames[i].id].(filename := renames[i].to)
  {
    if renames != [] {
      var n := |renames| - 1;
      var front := renames[..n];
      ApplyFacts(db, front);
      var mid, last := ApplyRenames(db, front), renames[n];
      assert !Renames(front, last.id);
      forall id | id in db && !Renames(renames, id) ensures ApplyRenames(db, renames)[id] == db[id] {
        assert forall i :: 0 <= i < n ==> front[i] == renames[i];
        assert last == renames[n] && last.id != id;
      }
      forall i | 0 <= i < |renames| && renames[i].id in db
        ensures ApplyRenames(db, renames)[renames[i].id] == db[renames[i].id].(filename := renames[i].to)
      {
        if i < n {
          assert front[i] == renames[i] && renames[i].id != last.id;
        }
      }
    }
  }

  // ----- A run of the migration -----

  /** How the database may fail on one group: reading the scope, or a write after `landed`
      renames have landed (all of them, when only the last answer was lost). */
  datatype Fault = NoFault | ReadFails | WriteFails(landed: nat)

  datatype Detail = Detail(filename: string, conversation: Option<string>, count: nat, renames: seq<Rename>)

  const DETAIL_SAMPLE_LIMIT := 50

  /** `plan` is every rename of the groups that went through; `details` only samples it. */
  datatype RunState = RunState(db: Db, filesRenamed: nat, errors: nat, plan: seq<Rename>, details: seq<Detail>)

  function Fresh(db: Db): RunState {
    RunState(db, 0, 0, [], [])
  }

  function Landing(renames: seq<Rename>, fault: Fault): seq<Rename> {
    if fault.WriteFails? && fault.landed < |renames| then renames[..fault.landed] else renames
  }

  function Succeed(st: RunState, g: Group, renames: seq<Rename>, db: Db): RunState {
    RunState(
      db,
      st.filesRenamed + |renames|,
      st.errors,
      st.plan + renames,
      if |st.details| < DETAIL_SAMPLE_LIMIT
      then st.details + [Detail(g.key.filename, g.key.conversation, |g.files|, renames)] else st.details)
  }

  function Carry(st: RunState, g: Group, renames: seq<Rename>, dryRun: bool, fault: Fault): RunState {
    if dryRun then Succeed(st, g, renames, st.db)
    else if fault.WriteFails? then
      st.(db := ApplyRenames(st.db, Landing(renames, fault)), errors := st.errors + 1)
    else Succeed(st, g, renames, ApplyRenames(st.db, renames))
  }

  function GroupStep(st: RunState, g: Group, dryRun: bool, fault: Fault): RunState
    requires |g.files| > 0
  {
    if fault.ReadFails? then st.(errors := st.errors + 1)
    else Carry(st, g, GroupPlan(st.db, g), dryRun, fault)
  }

  function RunGroups(db: Db, groups: seq<Group>, dryRun: bool, faults: seq<Fault>): RunState
    requires |faults| == |groups|
    requires forall i :: 0 <= i < |groups| ==> |groups[i].files| > 0
  {
    if groups == [] then Fresh(db)
    else
      var n := |groups| - 1;
      GroupStep(RunGroups(db, groups[..n], dryRun, faults[..n]), groups[n], dryRun, faults[n])
  }

  function NoFaults(n: nat): seq<Fault> {
    seq(n, _ => NoFault)
  }

  // ----- What a real run keeps -----

  /** Still waiting for its turn, or left half done by a failure. */
  predicate Open(groups: seq<Group>, faults: seq<Fault>, i: nat, key: Key)
    requires |faults| == |groups|
  {
    exists j :: 0 <= j < |groups| && groups[j].key == key && (j >= i || faults[j] != NoFault)
  }

  predicate Handled(groups: seq<Group>, i: nat, id: Id) {
    exists j :: 0 <= j < i && j < |groups| && IsStale(groups[j], id)
  }

  /** One record against its original: nothing but the filename may differ, and it differs only
      for a stale copy of a handled group, whose new name is a suffixed one that no record of
      the scope had. */
  ghost predicate RecordOk(db0: Db, db: Db, groups: seq<Group>, i: nat, id: Id)
    requires id in db0 && id in db
  {
    && db[id] == db0[id].(filename := db[id].filename)
    && (db[id] != db0[id] ==>
          && Handled(groups, i, id)
          && db[id].filename !in ScopeNames(db0, KeyOf(db0[id]))
          && IsSuffixed(db[id].filename, db0[id].filename))
  }

  predicate DuplicatesAreOpen(db: Db, groups: seq<Group>, faults: seq<Fault>, i: nat)
    requires |faults| == |groups|
  {
    forall a, b :: a in db && b in db && a != b && db[a].isCode && db[b].isCode && KeyOf(db[a]) == KeyOf(db[b])
      ==> Open(groups, faults, i, KeyOf(db[a]))
  }

  /** Every original name still occurs in its scope. */
  predicate NamesKept(db0: Db, db: Db) {
    forall id :: id in db0 && db0[id].isCode ==> db0[id].filename in ScopeNames(db, KeyOf(db0[id]))
  }

  ghost predicate Midway(db0: Db, db: Db, groups: seq<Group>, faults: seq<Fault>, i: nat)
    requires |faults| == |groups| && i <= |groups|
  {
    && db.Keys == db0.Keys
    && (forall id :: id in db0 ==> RecordOk(db0, db, groups, i, id))
    && (forall j, id :: i <= j < |groups| ==> (HasKey(db, id, groups[j].key) <==> HasKey(db0, id, groups[j].key)))
    && NamesKept(db0, db)
    && DuplicatesAreOpen(db, groups, faults, i)
  }

  ghost predicate ValidRun(db0: Db, groups: seq<Group>, faults: seq<Fault>) {
    IsGrouping(db0, groups) && |faults| == |groups|
  }

  lemma StartsMidway(db0: Db, groups: seq<Group>, faults: seq<Fault>)
    requires ValidRun(db0, groups, faults)
    ensures Midway(db0, db0, groups, faults, 0)
  {
    forall a, b | a in db0 && b in db0 && a != b && db0[a].isCode && db0[b].isCode && KeyOf(db0[a]) == KeyOf(db0[b])
      ensures Open(groups, faults, 0, KeyOf(db0[a]))
    {
      var i :| 0 <= i < |groups| && groups[i].key == KeyOf(db0[a]);
    }
  }

  /** What group `i` does to the database: the first `landed` names of its plan. */
  ghost predicate GroupLanded(db: Db, db': Db, g: Group, landed: seq<Rename>) {
    && |g.files| > 0
    && landed <= GroupPlan(db, g)
    && db' == ApplyRenames(db, landed)
  }

  /** The facts about `db'` that the preservation proofs use. */
  ghost predicate GroupEffect(db: Db, db': Db, g: Group, landed: seq<Rename>) {
    && db'.Keys == db.Keys
    && (forall k :: 0 <= k < |landed| ==>
          && landed[k].id in db && db'[landed[k].id] == db[landed[k].id].(filename := landed[k].to)
          && HasKey(db, landed[k].id, g.key)
          && IsStale(g, landed[k].id)
          && landed[k].to !in ScopeNames(db, g.key)
          && IsSuffixed(landed[k].to, g.key.filename))
    && (forall id :: id in db && !Renames(landed, id) ==> db'[id] == db[id])
    && DistinctTargets(landed)
  }

  lemma MidwayGroupOf(db0: Db, db: Db, groups: seq<Group>, faults: seq<Fault>, i: nat)
    requires ValidRun(db0, groups, faults) && i < |groups| && Midway(db0, db, groups, faults, i)
    ensures GroupOf(db, groups[i])
  {
    var g := groups[i];
    forall k | 0 <= k < |g.files|
      ensures HasKey(db, g.files[k].id, g.key)
      ensures g.files[k].fileId == db[g.files[k].id].fileId && g.files[k].createdAt == db[g.files[k].id].createdAt
    {
      assert HasKey(db0, g.files[k].id, g.key);
      assert RecordOk(db0, db, groups, i, g.files[k].id);
    }
    forall id | HasKey(db, id, g.key) ensures exists k :: 0 <= k < |g.files| && g.files[k].id == id {
      assert HasKey(db0, id, g.key);
    }
  }

  lemma GroupHasEffect(db: Db, db': Db, g: Group, landed: seq<Rename>)
    requires GroupOf(db, g) && GroupLanded(db, db', g, landed)
    ensures GroupEffect(db, db', g, landed)
  {
    GroupSplits(db, g);
    AssignFacts(g.key.filename, Stale(g), ScopeNames(db, g.key));
    var plan := GroupPlan(db, g);
    assert landed == plan[..|landed|];
    assert DistinctTargets(landed);
    ApplyFacts(db, landed);
  }

  lemma ScopeNamesHas(db: Db, key: Key, id: Id)
    requires id in db && db[id].isCode && SameScope(KeyOf(db[id]), key)
    ensures db[id].filename in ScopeNames(db, key)
  {
  }

  /** A name of the scope before is one after: a stale copy leaves its name with the kept one. */
  lemma NamesRemain(db: Db, db': Db, g: Group, landed: seq<Rename>, name: string, key: Key)
    requires GroupOf(db, g) && GroupEffect(db, db', g, landed)
    requires name in ScopeNames(db, key)
    ensures name in ScopeNames(db', key)
  {
    var id :| id in db && db[id].isCode && SameScope(KeyOf(db[id]), key) && db[id].filename == name;
    GroupSplits(db, g);
    if Renames(landed, id) {
      var k :| 0 <= k < |landed| && landed[k].id == id;
      var kept := Kept(g).id;
      assert !IsStale(g, kept);
      assert !Renames(landed, kept);
      assert db'[kept] == db[kept];
      ScopeNamesHas(db', key, kept);
    } else {
      ScopeNamesHas(db', key, id);
    }
  }

  lemma OriginalNamesRemain(
    db0: Db, db: Db, groups: seq<Group>, faults: seq<Fault>, i: nat, name: string, key: Key)
    requires |faults| == |groups| && i <= |groups| && Midway(db0, db, groups, faults, i)
    requires name in ScopeNames(db0, key)
    ensures name in ScopeNames(db, key)
  {
    var b :| b in db0 && db0[b].isCode && SameScope(KeyOf(db0[b]), key) && db0[b].filename == name;
    assert db0[b].filename in ScopeNames(db, KeyOf(db0[b]));
    assert ScopeNames(db, KeyOf(db0[b])) == ScopeNames(db, key);
  }

  lemma RecordOkStep(
    db0: Db, db: Db, db': Db, groups: seq<Group>, faults: seq<Fault>, i: nat, landed: seq<Rename>, id: Id)
    requires ValidRun(db0, groups, faults) && i < |groups| && Midway(db0, db, groups, faults, i)
    requires GroupEffect(db, db', groups[i], landed) && id in db0
    ensures RecordOk(db0, db', groups, i + 1, id)
  {
    assert RecordOk(db0, db, groups, i, id);
    if Renames(landed, id) {
      var k :| 0 <= k < |landed| && landed[k].id == id;
      assert HasKey(db, id, groups[i].key) && HasKey(db0, id, groups[i].key);
      assert Handled(groups, i + 1, id);
      var key := KeyOf(db0[id]);
      if landed[k].to in ScopeNames(db0, key) {
        OriginalNamesRemain(db0, db, groups, faults, i, landed[k].to, key);
      }
    } else if db'[id] != db0[id] {
      var j :| 0 <= j < i && j < |groups| && IsStale(groups[j], id);
      assert Handled(groups, i + 1, id);
    }
  }

  lemma PendingStep(
    db0: Db, db: Db, db': Db, groups: seq<Group>, faults: seq<Fault>, i: nat, landed: seq<Rename>, j: nat,
    id: Id)
    requires ValidRun(db0, groups, faults) && i < |groups| && Midway(db0, db, groups, faults, i)
    requires GroupEffect(db, db', groups[i], landed) && i < j < |groups|
    ensures HasKey(db', id, groups[j].key) <==> HasKey(db0, id, groups[j].key)
  {
    assert HasKey(db, id, groups[j].key) <==> HasKey(db0, id, groups[j].key);
    if Renames(landed, id) {
      var k :| 0 <= k < |landed| && landed[k].id == id;
      assert HasKey(db, id, groups[i].key) && groups[i].key != groups[j].key;
      if HasKey(db', id, groups[j].key) {
        var first := groups[j].files[0].id;
        assert HasKey(db0, first, groups[j].key);
        assert HasKey(db, first, groups[j].key);
        ScopeNamesHas(db, groups[i].key, first);
      }
    }
  }

  lemma OpenGrows(groups: seq<Group>, faults: seq<Fault>, i: nat, key: Key)
    requires |faults| == |groups| && i < |groups|
    requires Open(groups, faults, i, key)
    requires groups[i].key == key ==> faults[i] != NoFault
    ensures Open(groups, faults, i + 1, key)
  {
    var j :| 0 <= j < |groups| && groups[j].key == key && (j >= i || faults[j] != NoFault);
    assert j != i || faults[i] != NoFault;
  }

  /** Two different records with one key after the group: neither was renamed in it, or they
      are leftovers of this very group. */
  lemma ClashesAreOld(db: Db, db': Db, g: Group, landed: seq<Rename>, a: Id, b: Id)
    requires GroupOf(db, g) && GroupEffect(db, db', g, landed)
    requires a in db' && b in db' && a != b && db'[a].isCode && db'[b].isCode && KeyOf(db'[a]) == KeyOf(db'[b])
    ensures !Renames(landed, a) && !Renames(landed, b)
  {
    if Renames(landed, a) {
      RenamedIsAlone(db, db', g, landed, a, b);
    } else if Renames(landed, b) {
      RenamedIsAlone(db, db', g, landed, b, a);
    }
  }

  lemma RenamedIsAlone(db: Db, db': Db, g: Group, landed: seq<Rename>, a: Id, b: Id)
    requires GroupEffect(db, db', g, landed)
    requires a in db' && b in db' && a != b && db'[a].isCode && db'[b].isCode && Renames(landed, a)
    ensures KeyOf(db'[a]) != KeyOf(db'[b])
  {
    var k :| 0 <= k < |landed| && landed[k].id == a;
    if Renames(landed, b) {
      var j :| 0 <= j < |landed| && landed[j].id == b;
      assert landed[j].to != landed[k].to;
    } else if SameScope(KeyOf(db[b]), g.key) {
      ScopeNamesHas(db, g.key, b);
    }
  }

  predicate AllStaleRenamed(g: Group, landed: seq<Rename>)
    requires |g.files| > 0
  {
    forall k :: 0 <= k < |Stale(g)| ==> Renames(landed, Stale(g)[k].id)
  }

  lemma OnlyKeptRemains(db: Db, g: Group, landed: seq<Rename>, id: Id)
    requires GroupOf(db, g) && AllStaleRenamed(g, landed)
    requires HasKey(db, id, g.key) && !Renames(landed, id)
    ensures id == Kept(g).id
  {
    GroupSplits(db, g);
    assert !IsStale(g, id);
  }

  lemma DuplicatesStep(db0: Db, db: Db, db': Db, groups: seq<Group>, faults: seq<Fault>, i: nat, landed: seq<Rename>)
    requires ValidRun(db0, groups, faults) && i < |groups| && Midway(db0, db, groups, faults, i)
    requires GroupEffect(db, db', groups[i], landed) && GroupOf(db, groups[i])
    requires faults[i] == NoFault ==> AllStaleRenamed(groups[i], landed)
    ensures DuplicatesAreOpen(db', groups, faults, i + 1)
  {
    forall a, b | a in db' && b in db' && a != b && db'[a].isCode && db'[b].isCode && KeyOf(db'[a]) == KeyOf(db'[b])
      ensures Open(groups, faults, i + 1, KeyOf(db'[a]))
    {
      ClashesAreOld(db, db', groups[i], landed, a, b);
      var key := KeyOf(db[a]);
      assert db'[a] == db[a] && db'[b] == db[b];
      assert Open(groups, faults, i, key);
      if groups[i].key == key && faults[i] == NoFault {
        OnlyKeptRemains(db, groups[i], landed, a);
        OnlyKeptRemains(db, groups[i], landed, b);
      } else {
        OpenGrows(groups, faults, i, key);
      }
    }
  }

  lemma NamesKeptStep(db0: Db, db: Db, db': Db, g: Group, landed: seq<Rename>)
    requires GroupOf(db, g) && GroupEffect(db, db', g, landed) && NamesKept(db0, db)
    ensures NamesKept(db0, db')
  {
    forall id | id in db0 && db0[id].isCode ensures db0[id].filename in ScopeNames(db', KeyOf(db0[id])) {
      NamesRemain(db, db', g, landed, db0[id].filename, KeyOf(db0[id]));
    }
  }

  lemma MidwayFromEffect(db0: Db, db: Db, db': Db, groups: seq<Group>, faults: seq<Fault>, i: nat, landed: seq<Rename>)
    requires ValidRun(db0, groups, faults) && i < |groups| && Midway(db0, db, groups, faults, i)
    requires GroupOf(db, groups[i]) && GroupEffect(db, db', groups[i], landed)
    requires faults[i] == NoFault ==> AllStaleRenamed(groups[i], landed)
    ensures Midway(db0, db', groups, faults, i + 1)
  {
    forall id | id in db0 ensures RecordOk(db0, db', groups, i + 1, id) {
      RecordOkStep(db0, db, db', groups, faults, i, landed, id);
    }
    forall j, id | i + 1 <= j < |groups| ensures HasKey(db', id, groups[j].key) <==> HasKey(db0, id, groups[j].key) {
      PendingStep(db0, db, db', groups, faults, i, landed, j, id);
    }
    NamesKeptStep(db0, db, db', groups[i], landed);
    DuplicatesStep(db0, db, db', groups, faults, i, landed);
  }

  lemma FullPlanRenamesAllStale(db: Db, g: Group)
    requires |g.files| > 0
    ensures AllStaleRenamed(g, GroupPlan(db, g))
  {
    AssignFacts(g.key.filename, Stale(g), ScopeNames(db, g.key));
    forall k | 0 <= k < |Stale(g)| ensures Renames(GroupPlan(db, g), Stale(g)[k].id) {
      assert GroupPlan(db, g)[k].id == Stale(g)[k].id;
    }
  }

  lemma MidwayStep(db0: Db, db: Db, db': Db, groups: seq<Group>, faults: seq<Fault>, i: nat, landed: seq<Rename>)
    requires ValidRun(db0, groups, faults) && i < |groups| && Midway(db0, db, groups, faults, i)
    requires GroupLanded(db, db', groups[i], landed)
    requires faults[i] == NoFault ==> landed == GroupPlan(db, groups[i])
    ensures Midway(db0, db', groups, faults, i + 1)
  {
    MidwayGroupOf(db0, db, groups, faults, i);
    GroupHasEffect(db, db', groups[i], landed);
    FullPlanRenamesAllStale(db, groups[i]);
    MidwayFromEffect(db0, db, db', groups, faults, i, landed);
  }

  lemma MidwaySkip(db0: Db, db: Db, groups: seq<Group>, faults: seq<Fault>, i: nat)
    requires ValidRun(db0, groups, faults) && i < |groups| && Midway(db0, db, groups, faults, i)
    requires faults[i] != NoFault
    ensures Midway(db0, db, groups, faults, i + 1)
  {
    assert ApplyRenames(db, []) == db;
    assert [] <= GroupPlan(db, groups[i]);
    MidwayStep(db0, db, db, groups, faults, i, []);
  }

  ghost predicate NonEmptyGroups(groups: seq<Group>) {
    forall i :: 0 <= i < |groups| ==> |groups[i].files| > 0
  }

  lemma {:induction false} RunIsMidway(db0: Db, groups: seq<Group>, faults: seq<Fault>, i: nat)
    requires ValidRun(db0, groups, faults) && i <= |groups| && NonEmptyGroups(groups)
    ensures Midway(db0, RunGroups(db0, groups[..i], false, faults[..i]).db, groups, faults, i)
  {
    if i == 0 {
      StartsMidway(db0, groups, faults);
    } else {
      RunIsMidway(db0, groups, faults, i - 1);
      RunGroupsSnoc(db0, groups, false, faults, i - 1);
      MidwayAfterGroup(db0, RunGroups(db0, groups[..i - 1], false, faults[..i - 1]), groups, faults, i - 1);
    }
  }

  lemma RunGroupsSnoc(db: Db, groups: seq<Group>, dryRun: bool, faults: seq<Fault>, i: nat)
    requires |faults| == |groups| && i < |groups| && NonEmptyGroups(groups)
    ensures RunGroups(db, groups[..i + 1], dryRun, faults[..i + 1])
         == GroupStep(RunGroups(db, groups[..i], dryRun, faults[..i]), groups[i], dryRun, faults[i])
  {
    assert groups[..i + 1][..i] == groups[..i] && faults[..i + 1][..i] == faults[..i];
  }

  lemma MidwayAfterGroup(db0: Db, st: RunState, groups: seq<Group>, faults: seq<Fault>, i: nat)
    requires ValidRun(db0, groups, faults) && i < |groups| && NonEmptyGroups(groups)
    requires Midway(db0, st.db, groups, faults, i)
    ensures Midway(db0, GroupStep(st, groups[i], false, faults[i]).db, groups, faults, i + 1)
  {
    if faults[i].ReadFails? {
      MidwaySkip(db0, st.db, groups, faults, i);
    } else {
      var landed := Landing(GroupPlan(st.db, groups[i]), faults[i]);
      MidwayStep(db0, st.db, ApplyRenames(st.db, landed), groups, faults, i, landed);
    }
  }

  // ----- Main results about the migration -----

  lemma {:induction false} NonEmpty(db: Db, groups: seq<Group>)
    requires IsGrouping(db, groups)
    ensures NonEmptyGroups(groups)
  {
    forall i | 0 <= i < |groups| ensures |groups[i].files| > 0 {
      assert GroupOf(db, groups[i]);
    }
  }

  ghost predicate NothingLost(db: Db, db': Db, groups: seq<Group>) {
    && db'.Keys == db.Keys
    && (forall id :: id in db ==> db'[id] == db[id].(filename := db'[id].filename))
    && (forall id :: id in db && db'[id] != db[id] ==>
          db[id].isCode && exists j :: 0 <= j < |groups| && IsStale(groups[j], id))
  }

  /** The kept record is a newest one of its group and is as it was. */
  ghost predicate NewestKeepsName(db: Db, db': Db, g: Group)
    requires |g.files| > 0
  {
    && Kept(g).id in db && Kept(g).id in db'
    && db'[Kept(g).id] == db[Kept(g).id]
    && KeyOf(db[Kept(g).id]) == g.key
    && (forall i :: 0 <= i < |g.files| ==> Time(Kept(g)) >= Time(g.files[i]))
  }

  predicate Failed(groups: seq<Group>, faults: seq<Fault>, key: Key)
    requires |faults| == |groups|
  {
    exists j :: 0 <= j < |groups| && groups[j].key == key && faults[j] != NoFault
  }

  predicate DuplicatesOnlyWhereFailed(db: Db, groups: seq<Group>, faults: seq<Fault>)
    requires |faults| == |groups|
  {
    forall a, b :: a in db && b in db && a != b && db[a].isCode && db[b].isCode && KeyOf(db[a]) == KeyOf(db[b])
      ==> Failed(groups, faults, KeyOf(db[a]))
  }

  /** A real run over the groups the aggregation found, under any pattern of failures, ends
      in `st`. */
  ghost predicate Migrates(db: Db, groups: seq<Group>, faults: seq<Fault>, st: RunState) {
    ValidRun(db, groups, faults) && NonEmptyGroups(groups) && st == RunGroups(db, groups, false, faults)
  }

  /** For every database, every order of its groups and every pattern of failures: no record is
      lost, nothing but a filename changes and only on stale copies; each group's kept record, a
      newest one, keeps its name; and two records still share a key only if their group failed. */
  lemma MigrationIsSafe(db: Db, groups: seq<Group>, faults: seq<Fault>, st: RunState)
    requires Migrates(db, groups, faults, st)
    ensures NothingLost(db, st.db, groups)
    ensures forall j :: 0 <= j < |groups| ==> NewestKeepsName(db, st.db, groups[j])
    ensures DuplicatesOnlyWhereFailed(st.db, groups, faults)
  {
    var n := |groups|;
    RunIsMidway(db, groups, faults, n);
    assert groups[..n] == groups && faults[..n] == faults;
    var db' := st.db;
    EndsWithNothingLost(db, db', groups, faults);
    forall j | 0 <= j < |groups| ensures NewestKeepsName(db, db', groups[j]) {
      KeptKeepsItsName(db, db', groups, faults, j);
    }
    EndsWithDuplicatesOnlyWhereFailed(db, db', groups, faults);
  }

  lemma EndsWithDuplicatesOnlyWhereFailed(db: Db, db': Db, groups: seq<Group>, faults: seq<Fault>)
    requires |faults| == |groups| && Midway(db, db', groups, faults, |groups|)
    ensures DuplicatesOnlyWhereFailed(db', groups, faults)
  {
    forall a, b | a in db' && b in db' && a != b && db'[a].isCode && db'[b].isCode && KeyOf(db'[a]) == KeyOf(db'[b])
      ensures Failed(groups, faults, KeyOf(db'[a]))
    {
      assert Open(groups, faults, |groups|, KeyOf(db'[a]));
    }
  }

  lemma EndsWithNothingLost(db: Db, db': Db, groups: seq<Group>, faults: seq<Fault>)
    requires ValidRun(db, groups, faults) && NonEmptyGroups(groups)
    requires Midway(db, db', groups, faults, |groups|)
    ensures NothingLost(db, db', groups)
  {
    forall id | id in db
      ensures db'[id] == db[id].(filename := db'[id].filename)
      ensures db'[id] != db[id] ==> db[id].isCode && exists j :: 0 <= j < |groups| && IsStale(groups[j], id)
    {
      assert RecordOk(db, db', groups, |groups|, id);
      if db'[id] != db[id] {
        var j :| 0 <= j < |groups| && IsStale(groups[j], id);
        GroupSplits(db, groups[j]);
        StaleHasKey(db, groups[j], id);
      }
    }
  }

  lemma StaleHasKey(db: Db, g: Group, id: Id)
    requires GroupOf(db, g) && IsStale(g, id)
    ensures HasKey(db, id, g.key) && id != Kept(g).id
  {
    GroupSplits(db, g);
  }

  lemma KeptKeepsItsName(db: Db, db': Db, groups: seq<Group>, faults: seq<Fault>, j: nat)
    requires ValidRun(db, groups, faults) && NonEmptyGroups(groups) && j < |groups|
    requires Midway(db, db', groups, faults, |groups|)
    ensures NewestKeepsName(db, db', groups[j])
  {
    GroupSplits(db, groups[j]);
    KeptIsNeverStale(db, groups, j, |groups|);
    assert RecordOk(db, db', groups, |groups|, Kept(groups[j]).id);
  }

  lemma KeptIsNeverStale(db: Db, groups: seq<Group>, j: nat, n: nat)
    requires IsGrouping(db, groups) && j < |groups| && NonEmptyGroups(groups)
    ensures !Handled(groups, n, Kept(groups[j]).id)
  {
    GroupSplits(db, groups[j]);
    forall k | 0 <= k < |groups| ensures !IsStale(groups[k], Kept(groups[j]).id) {
      GroupSplits(db, groups[k]);
      if k != j {
        assert groups[k].key != groups[j].key;
      }
    }
  }

  predicate AllClear(faults: seq<Fault>) {
    forall i :: 0 <= i < |faults| ==> faults[i] == NoFault
  }

  lemma AllClearSnoc(faults: seq<Fault>, n: nat)
    requires |faults| == n + 1
    ensures AllClear(faults) <==> AllClear(faults[..n]) && faults[n] == NoFault
  {
    assert forall i :: 0 <= i < n ==> faults[..n][i] == faults[i];
  }

  lemma {:induction false} ErrorsAreFaults(db: Db, groups: seq<Group>, faults: seq<Fault>)
    requires |faults| == |groups| && NonEmptyGroups(groups)
    ensures RunGroups(db, groups, false, faults).errors == 0 <==> AllClear(faults)
  {
    if groups != [] {
      var n := |groups| - 1;
      ErrorsAreFaults(db, groups[..n], faults[..n]);
      AllClearSnoc(faults, n);
      var st := RunGroups(db, groups[..n], false, faults[..n]);
      assert RunGroups(db, groups, false, faults).errors == st.errors + (if faults[n] == NoFault then 0 else 1);
    }
  }

  /** A run without errors leaves every filename unique in its scope, however many groups
      interact, so the unique index can build. */
  lemma MigrationMakesNamesUnique(db: Db, groups: seq<Group>, faults: seq<Fault>, st: RunState)
    requires Migrates(db, groups, faults, st) && st.errors == 0
    ensures Unique(st.db)
  {
    MigrationIsSafe(db, groups, faults, st);
    ErrorsAreFaults(db, groups, faults);
  }

  /** A collection is unique exactly when the aggregation finds no group: a rerun after a run
      without errors has nothing to do. */
  lemma UniqueIffNoGroups(db: Db, groups: seq<Group>)
    requires IsGrouping(db, groups)
    ensures Unique(db) <==> groups == []
  {
    if groups != [] {
      var g := groups[0];
      assert GroupOf(db, g);
      assert g.files[0].id != g.files[1].id;
      assert HasKey(db, g.files[0].id, g.key) && HasKey(db, g.files[1].id, g.key);
    }
  }

  // ----- Dry run and real run -----

  function Concat(plans: seq<seq<Rename>>): seq<Rename> {
    if plans == [] then [] else Concat(plans[..|plans| - 1]) + plans[|plans| - 1]
  }

  /** The plan computed from the untouched collection. */
  function PlansOf(db: Db, groups: seq<Group>): seq<seq<Rename>>
    requires forall i :: 0 <= i < |groups| ==> |groups[i].files| > 0
  {
    seq(|groups|, i requires 0 <= i < |groups| => GroupPlan(db, groups[i]))
  }

  /** No two duplicated names of one scope split into the same base and extension. */
  predicate NoSplitClash(groups: seq<Group>) {
    forall i, j :: 0 <= i < j < |groups| ==>
      !(SameScope(groups[i].key, groups[j].key) && SameSplit(groups[i].key.filename, groups[j].key.filename))
  }

  lemma NoFaultsFront(n: nat)
    requires n > 0
    ensures NoFaults(n)[..n - 1] == NoFaults(n - 1)
  {
  }

  lemma {:induction false} DryPlan(db: Db, groups: seq<Group>)
    requires NonEmptyGroups(groups)
    ensures RunGroups(db, groups, true, NoFaults(|groups|)).plan == Concat(PlansOf(db, groups))
    ensures RunGroups(db, groups, true, NoFaults(|groups|)).db == db
    ensures RunGroups(db, groups, true, NoFaults(|groups|)).errors == 0
  {
    if groups != [] {
      NoFaultsFront(|groups|);
      var n := |groups| - 1;
      DryPlan(db, groups[..n]);
      assert PlansOf(db, groups)[..n] == PlansOf(db, groups[..n]);
    }
  }

  /** A name that an earlier group put into the scope is of that group's family. */
  lemma NewNamesAreOfEarlierFamilies(db0: Db, db: Db, groups: seq<Group>, faults: seq<Fault>, i: nat, name: string)
    requires ValidRun(db0, groups, faults) && i < |groups| && Midway(db0, db, groups, faults, i)
    requires name in ScopeNames(db, groups[i].key) && name !in ScopeNames(db0, groups[i].key)
    ensures exists j | 0 <= j < i && SameScope(groups[j].key, groups[i].key) ::
      IsSuffixed(name, groups[j].key.filename)
  {
    var key := groups[i].key;
    var id :| id in db && db[id].isCode && SameScope(KeyOf(db[id]), key) && db[id].filename == name;
    assert RecordOk(db0, db, groups, i, id);
    if db[id] == db0[id] {
      ScopeNamesHas(db0, key, id);
    } else {
      var j :| 0 <= j < i && j < |groups| && IsStale(groups[j], id);
      GroupSplits(db0, groups[j]);
      assert HasKey(db0, id, groups[j].key);
    }
  }

  lemma PlanUnchanged(db0: Db, db: Db, groups: seq<Group>, faults: seq<Fault>, i: nat)
    requires ValidRun(db0, groups, faults) && i < |groups| && Midway(db0, db, groups, faults, i)
    requires NoSplitClash(groups) && |groups[i].files| > 0
    ensures GroupPlan(db, groups[i]) == GroupPlan(db0, groups[i])
  {
    var g := groups[i];
    var s, t := ScopeNames(db, g.key), ScopeNames(db0, g.key);
    forall n: nat | n >= 1
      ensures SuffixFilename(g.key.filename, n) in s <==> SuffixFilename(g.key.filename, n) in t
    {
      var name := SuffixFilename(g.key.filename, n);
      if name in t {
        OriginalNamesRemain(db0, db, groups, faults, i, name, g.key);
      } else if name in s {
        NewNamesAreOfEarlierFamilies(db0, db, groups, faults, i, name);
        var j :| 0 <= j < i && SameScope(groups[j].key, g.key) && IsSuffixed(name, groups[j].key.filename);
        var m: nat :| m >= 1 && name == SuffixFilename(groups[j].key.filename, m);
        SuffixesCollideIff(g.key.filename, groups[j].key.filename, n, m);
      }
    }
    AssignIgnoresOtherFamilies(g.key.filename, Stale(g), s, t);
  }

  lemma ValidPrefix(db: Db, groups: seq<Group>)
    requires IsGrouping(db, groups)
    ensures ValidRun(db, groups, NoFaults(|groups|)) && NonEmptyGroups(groups)
    ensures forall i :: 0 <= i <= |groups| ==> NoFaults(|groups|)[..i] == NoFaults(i)
  {
    NonEmpty(db, groups);
  }

  /** Without clashing splits the real run does what the dry run announced, group for group,
      although it re-reads names that earlier groups changed. */
  lemma {:induction false} RealFollowsDry(db: Db, groups: seq<Group>, i: nat)
    requires IsGrouping(db, groups) && NonEmptyGroups(groups) && i <= |groups| && NoSplitClash(groups)
    ensures var wet := RunGroups(db, groups[..i], false, NoFaults(i));
      var dry := RunGroups(db, groups[..i], true, NoFaults(i));
      wet.(db := db) == dry
  {
    if i > 0 {
      ValidPrefix(db, groups);
      assert groups[..i][..i - 1] == groups[..i - 1];
      NoFaultsFront(i);
      RealFollowsDry(db, groups, i - 1);
      RunIsMidway(db, groups, NoFaults(|groups|), i - 1);
      PlanUnchanged(db, RunGroups(db, groups[..i - 1], false, NoFaults(i - 1)).db, groups, NoFaults(|groups|), i - 1);
      DryPlan(db, groups[..i - 1]);
    }
  }

  /** A planned rename of a handled group stands in the collection. */
  predicate Stands(db: Db, groups: seq<Group>, i: nat, r: Rename) {
    r.id in db && db[r.id].filename == r.to && Handled(groups, i, r.id)
  }

  predicate PlanStands(st: RunState, groups: seq<Group>, i: nat) {
    forall k :: 0 <= k < |st.plan| ==> Stands(st.db, groups, i, st.plan[k])
  }

  lemma StaleOnce(db: Db, groups: seq<Group>, i: nat, id: Id)
    requires IsGrouping(db, groups) && NonEmptyGroups(groups) && i < |groups| && Handled(groups, i, id)
    ensures !IsStale(groups[i], id)
  {
    var j :| 0 <= j < i && j < |groups| && IsStale(groups[j], id);
    GroupSplits(db, groups[i]);
    GroupSplits(db, groups[j]);
    assert groups[j].key != groups[i].key;
    assert HasKey(db, id, groups[j].key);
  }

  lemma {:induction false} PlanOfRealRunStands(db: Db, groups: seq<Group>, i: nat)
    requires IsGrouping(db, groups) && NonEmptyGroups(groups) && i <= |groups|
    ensures PlanStands(RunGroups(db, groups[..i], false, NoFaults(i)), groups, i)
  {
    if i > 0 {
      PlanOfRealRunStands(db, groups, i - 1);
      var st := RunGroups(db, groups[..i - 1], false, NoFaults(i - 1));
      var st' := RunGroups(db, groups[..i], false, NoFaults(i));
      var landed := RealStepLands(db, groups, i, st, st');
      PlanStandsStep(db, groups, i, st, st', landed);
    }
  }

  /** One more group of a real run without faults. */
  lemma RealStep(st: RunState, st': RunState, g: Group) returns (landed: seq<Rename>)
    requires |g.files| > 0 && st' == GroupStep(st, g, false, NoFault)
    ensures landed == GroupPlan(st.db, g)
    ensures st'.db == ApplyRenames(st.db, landed) && st'.plan == st.plan + landed
  {
    landed := GroupPlan(st.db, g);
  }

  lemma RealStepLands(db: Db, groups: seq<Group>, i: nat, st: RunState, st': RunState) returns (landed: seq<Rename>)
    requires IsGrouping(db, groups) && NonEmptyGroups(groups) && 0 < i <= |groups|
    requires st == RunGroups(db, groups[..i - 1], false, NoFaults(i - 1))
    requires st' == RunGroups(db, groups[..i], false, NoFaults(i))
    ensures PlanLanded(st.db, st'.db, groups[i - 1], landed) && st'.plan == st.plan + landed
  {
    ValidPrefix(db, groups);
    RunIsMidway(db, groups, NoFaults(|groups|), i - 1);
    MidwayGroupOf(db, st.db, groups, NoFaults(|groups|), i - 1);
    RunGroupsSnoc(db, groups, false, NoFaults(|groups|), i - 1);
    assert NoFaults(|groups|)[i - 1] == NoFault;
    landed := LandOne(st, st', groups[i - 1]);
  }

  lemma LandOne(st: RunState, st': RunState, g: Group) returns (landed: seq<Rename>)
    requires GroupOf(st.db, g) && st' == GroupStep(st, g, false, NoFault)
    ensures PlanLanded(st.db, st'.db, g, landed) && st'.plan == st.plan + landed
  {
    landed := RealStep(st, st', g);
    GroupHasEffect(st.db, st'.db, g, landed);
    EffectMeansPlanLanded(st.db, st'.db, g, landed);
  }

  lemma PlanStandsStep(db: Db, groups: seq<Group>, i: nat, st: RunState, st': RunState, landed: seq<Rename>)
    requires IsGrouping(db, groups) && NonEmptyGroups(groups) && 0 < i <= |groups|
    requires PlanStands(st, groups, i - 1)
    requires PlanLanded(st.db, st'.db, groups[i - 1], landed) && st'.plan == st.plan + landed
    ensures PlanStands(st', groups, i)
  {
    forall k | 0 <= k < |st'.plan| ensures Stands(st'.db, groups, i, st'.plan[k]) {
      if k < |st.plan| {
        assert Stands(st.db, groups, i - 1, st.plan[k]);
        EarlierPlanStands(db, groups, i, st.db, st'.db, landed, st.plan[k]);
      } else {
        NewPlanStands(groups, i, st.db, st'.db, landed, k - |st.plan|);
      }
    }
  }

  predicate PlanLanded(db: Db, db': Db, g: Group, landed: seq<Rename>) {
    && (forall k :: 0 <= k < |landed| ==>
          landed[k].id in db' && db'[landed[k].id].filename == landed[k].to && IsStale(g, landed[k].id))
    && (forall id :: id in db && !Renames(landed, id) ==> id in db' && db'[id] == db[id])
  }

  lemma EffectMeansPlanLanded(db: Db, db': Db, g: Group, landed: seq<Rename>)
    requires GroupEffect(db, db', g, landed)
    ensures PlanLanded(db, db', g, landed)
  {
  }

  lemma HandledGrows(groups: seq<Group>, i: nat, id: Id)
    requires i < |groups| && (Handled(groups, i, id) || IsStale(groups[i], id))
    ensures Handled(groups, i + 1, id)
  {
    if Handled(groups, i, id) {
      var j :| 0 <= j < i && j < |groups| && IsStale(groups[j], id);
    }
  }

  lemma NewPlanStands(groups: seq<Group>, i: nat, db: Db, db': Db, landed: seq<Rename>, k: nat)
    requires 0 < i <= |groups| && k < |landed| && PlanLanded(db, db', groups[i - 1], landed)
    ensures Stands(db', groups, i, landed[k])
  {
    HandledGrows(groups, i - 1, landed[k].id);
  }

  lemma UntouchedStands(db: Db, db': Db, g: Group, landed: seq<Rename>, id: Id)
    requires PlanLanded(db, db', g, landed) && id in db && !IsStale(g, id)
    ensures id in db' && db'[id] == db[id]
  {
  }

  lemma EarlierPlanStands(db0: Db, groups: seq<Group>, i: nat, db: Db, db': Db, landed: seq<Rename>, r: Rename)
    requires IsGrouping(db0, groups) && NonEmptyGroups(groups) && 0 < i <= |groups|
    requires Stands(db, groups, i - 1, r) && PlanLanded(db, db', groups[i - 1], landed)
    ensures Stands(db', groups, i, r)
  {
    EarlierIsDone(db0, groups, i - 1, r.id);
    UntouchedStands(db, db', groups[i - 1], landed, r.id);
  }

  lemma EarlierIsDone(db: Db, groups: seq<Group>, i: nat, id: Id)
    requires IsGrouping(db, groups) && NonEmptyGroups(groups) && i < |groups| && Handled(groups, i, id)
    ensures !IsStale(groups[i], id) && Handled(groups, i + 1, id)
  {
    StaleOnce(db, groups, i, id);
    HandledGrows(groups, i, id);
  }

  predicate SamePlan(a: seq<Rename>, b: seq<Rename>) {
    (forall r :: r in a ==> r in b) && (forall r :: r in b ==> r in a)
  }

  lemma {:induction false} FindInConcat(plans: seq<seq<Rename>>, r: Rename) returns (i: nat)
    requires r in Concat(plans)
    ensures i < |plans| && r in plans[i]
  {
    i := |plans| - 1;
    if r !in plans[i] {
      i := FindInConcat(plans[..i], r);
    }
  }

  lemma {:induction false} InConcat(plans: seq<seq<Rename>>, i: nat, r: Rename)
    requires i < |plans| && r in plans[i]
    ensures r in Concat(plans)
  {
    var n := |plans| - 1;
    if i < n {
      assert plans[..n][i] == plans[i];
      InConcat(plans[..n], i, r);
    }
  }

  /** Two duplicated names that split alike get the same replacement in the plan made from the
      untouched collection. */
  lemma ClashingPlansCollide(db: Db, g: Group, h: Group)
    requires GroupOf(db, g) && GroupOf(db, h)
    requires SameScope(g.key, h.key) && SameSplit(g.key.filename, h.key.filename)
    ensures |GroupPlan(db, g)| > 0 && |GroupPlan(db, h)| > 0
    ensures GroupPlan(db, g)[0].to == GroupPlan(db, h)[0].to
  {
    GroupSplits(db, g);
    GroupSplits(db, h);
    var taken := ScopeNames(db, g.key);
    assert taken == ScopeNames(db, h.key);
    FirstAssigned(g.key.filename, Stale(g), taken);
    FirstAssigned(h.key.filename, Stale(h), taken);
    forall n: nat | n >= 1
      ensures SuffixFilename(g.key.filename, n) in taken <==> SuffixFilename(h.key.filename, n) in taken
    {
      SuffixesCollideIff(g.key.filename, h.key.filename, n, n);
    }
    SameFamilySameIndex(g.key.filename, h.key.filename, taken, taken);
    var n := FreeIndex(g.key.filename, taken, 1);
    SuffixesCollideIff(g.key.filename, h.key.filename, n, n);
  }

  lemma {:induction false} FirstAssigned(filename: string, stale: seq<GroupFile>, taken: set<string>)
    requires stale != []
    ensures AssignNames(filename, stale, taken)[0].to == FreeName(filename, taken)
  {
    var n := |stale| - 1;
    if n > 0 {
      FirstAssigned(filename, stale[..n], taken);
    } else {
      assert taken + Targets([]) == taken;
    }
  }

  lemma ClashBreaksThePlan(db: Db, groups: seq<Group>, i: nat, j: nat)
    requires IsGrouping(db, groups) && NonEmptyGroups(groups) && i < j < |groups|
    requires SameScope(groups[i].key, groups[j].key) && SameSplit(groups[i].key.filename, groups[j].key.filename)
    ensures !SamePlan(Concat(PlansOf(db, groups)), RunGroups(db, groups, false, NoFaults(|groups|)).plan)
  {
    var st := RunGroups(db, groups, false, NoFaults(|groups|));
    ClashingPlansCollide(db, groups[i], groups[j]);
    var a, b := GroupPlan(db, groups[i])[0], GroupPlan(db, groups[j])[0];
    InConcat(PlansOf(db, groups), i, a);
    InConcat(PlansOf(db, groups), j, b);
    PlannedRecord(db, groups[i]);
    PlannedRecord(db, groups[j]);
    if a in st.plan && b in st.plan {
      RealPlanHasNoCollision(db, groups, a, b);
    }
  }

  /** A real run never gives two records of one scope the same name. */
  lemma RealPlanHasNoCollision(db: Db, groups: seq<Group>, a: Rename, b: Rename)
    requires IsGrouping(db, groups) && NonEmptyGroups(groups)
    requires var plan := RunGroups(db, groups, false, NoFaults(|groups|)).plan; a in plan && b in plan
    requires a.id in db && b.id in db && a.id != b.id && db[a.id].isCode && db[b.id].isCode
    requires SameScope(KeyOf(db[a.id]), KeyOf(db[b.id]))
    ensures a.to != b.to
  {
    var n := |groups|;
    ValidPrefix(db, groups);
    assert groups[..n] == groups;
    PlanOfRealRunStands(db, groups, n);
    MigrationIsSafe(db, groups, NoFaults(n), RunGroups(db, groups, false, NoFaults(n)));
    StandingPlanHasNoCollision(db, groups, RunGroups(db, groups, false, NoFaults(n)), a, b);
  }

  lemma StandingPlanHasNoCollision(db: Db, groups: seq<Group>, st: RunState, a: Rename, b: Rename)
    requires PlanStands(st, groups, |groups|) && NothingLost(db, st.db, groups)
    requires DuplicatesOnlyWhereFailed(st.db, groups, NoFaults(|groups|))
    requires a in st.plan && b in st.plan
    requires a.id in db && b.id in db && a.id != b.id && db[a.id].isCode && db[b.id].isCode
    requires SameScope(KeyOf(db[a.id]), KeyOf(db[b.id]))
    ensures a.to != b.to
  {
    assert Stands(st.db, groups, |groups|, a) && Stands(st.db, groups, |groups|, b);
    assert KeyOf(st.db[a.id]) != KeyOf(st.db[b.id]);
  }

  lemma PlannedRecord(db: Db, g: Group)
    requires GroupOf(db, g)
    ensures |GroupPlan(db, g)| > 0 && HasKey(db, GroupPlan(db, g)[0].id, g.key)
  {
    GroupSplits(db, g);
    AssignFacts(g.key.filename, Stale(g), ScopeNames(db, g.key));
  }

  /** The dry run announces exactly the renames a real run performs if and only if no two
      duplicated names of one scope split into the same base and extension; it always announces
      the right number of them. */
  lemma DryRunEqualsRealRunIff(db: Db, groups: seq<Group>)
    requires IsGrouping(db, groups) && NonEmptyGroups(groups)
    ensures var n := |groups|;
      var dry, wet := RunGroups(db, groups, true, NoFaults(n)), RunGroups(db, groups, false, NoFaults(n));
      && (SamePlan(dry.plan, wet.plan) <==> NoSplitClash(groups))
      && (NoSplitClash(groups) ==> wet.(db := db) == dry)
      && dry.filesRenamed == wet.filesRenamed
  {
    var n := |groups|;
    assert groups[..n] == groups;
    DryPlan(db, groups);
    SameCount(db, groups);
    if NoSplitClash(groups) {
      RealFollowsDry(db, groups, n);
    } else {
      var i, j :| 0 <= i < j < n
        && SameScope(groups[i].key, groups[j].key) && SameSplit(groups[i].key.filename, groups[j].key.filename);
      ClashBreaksThePlan(db, groups, i, j);
    }
  }

  lemma {:induction false} SameCount(db: Db, groups: seq<Group>)
    requires NonEmptyGroups(groups)
    ensures RunGroups(db, groups, true, NoFaults(|groups|)).filesRenamed
         == RunGroups(db, groups, false, NoFaults(|groups|)).filesRenamed
  {
    if groups != [] {
      NoFaultsFront(|groups|);
      SameCount(db, groups[..|groups| - 1]);
    }
  }

  /** In particular dry run and real run agree when no filename ends in a slash. */
  lemma DryRunEqualsRealRun(db: Db, groups: seq<Group>)
    requires IsGrouping(db, groups) && NonEmptyGroups(groups)
    requires forall id :: id in db ==> db[id].filename == "" || db[id].filename[|db[id].filename| - 1] != '/'
    ensures var n := |groups|;
      RunGroups(db, groups, false, NoFaults(n)).(db := db) == RunGroups(db, groups, true, NoFaults(n))
  {
    forall i, j | 0 <= i < j < |groups| && SameScope(groups[i].key, groups[j].key)
      ensures !SameSplit(groups[i].key.filename, groups[j].key.filename)
    {
      assert GroupOf(db, groups[i]) && GroupOf(db, groups[j]);
      assert HasKey(db, groups[i].files[0].id, groups[i].key) && HasKey(db, groups[j].files[0].id, groups[j].key);
      assert groups[i].key.filename != groups[j].key.filename;
      SuffixInjective(groups[i].key.filename, groups[j].key.filename, 1, 1);
      SuffixesCollideIff(groups[i].key.filename, groups[j].key.filename, 1, 1);
    }
    DryRunEqualsRealRunIff(db, groups);
  }

  /** The order in which the aggregation returns the groups does not change what a real run
      renames to what (without clashing splits). */
  lemma GroupOrderDoesNotMatter(db: Db, groups: seq<Group>, other: seq<Group>)
    requires IsGrouping(db, groups) && NonEmptyGroups(groups) && NoSplitClash(groups)
    requires IsGrouping(db, other) && NonEmptyGroups(other) && NoSplitClash(other)
    requires forall g :: g in groups <==> g in other
    ensures SamePlan(
      RunGroups(db, groups, false, NoFaults(|groups|)).plan,
      RunGroups(db, other, false, NoFaults(|other|)).plan)
  {
    DryRunEqualsRealRunIff(db, groups);
    DryRunEqualsRealRunIff(db, other);
    DryPlan(db, groups);
    DryPlan(db, other);
    PlansInclude(db, groups, other);
    PlansInclude(db, other, groups);
  }

  lemma PlansInclude(db: Db, groups: seq<Group>, other: seq<Group>)
    requires NonEmptyGroups(groups) && NonEmptyGroups(other)
    requires forall g :: g in groups ==> g in other
    ensures forall r :: r in Concat(PlansOf(db, groups)) ==> r in Concat(PlansOf(db, other))
  {
    forall r | r in Concat(PlansOf(db, groups)) ensures r in Concat(PlansOf(db, other)) {
      var i := FindInConcat(PlansOf(db, groups), r);
      assert groups[i] in other;
      var j :| 0 <= j < |other| && other[j] == groups[i];
      InConcat(PlansOf(db, other), j, r);
    }
  }

  // ----- The migration as it runs -----

  lemma AssignSnoc(filename: string, stale: seq<GroupFile>, i: nat, taken: set<string>, before: seq<Rename>, to: string)
    requires i < |stale| && before == AssignNames(filename, stale[..i], taken)
    requires to == FreeName(filename, taken + Targets(before))
    ensures AssignNames(filename, stale[..i + 1], taken) == before + [Rename(stale[i].id, stale[i].fileId, to)]
    ensures Targets(before + [Rename(stale[i].id, stale[i].fileId, to)]) == Targets(before) + {to}
  {
    assert stale[..i + 1][..i] == stale[..i];
    TargetsSnoc(before, Rename(stale[i].id, stale[i].fileId, to));
  }

  /** Names handed out to the first `i` stale files, and the names taken then. */
  predicate AssignedTo(
    filename: string, stale: seq<GroupFile>, i: nat, scope: set<string>, renames: seq<Rename>,
    names: set<string>)
    requires i <= |stale|
  {
    renames == AssignNames(filename, stale[..i], scope) && names == scope + Targets(renames)
  }

  lemma AssignNext(
    filename: string, stale: seq<GroupFile>, i: nat, scope: set<string>, renames: seq<Rename>,
    names: set<string>, to: string)
    requires i < |stale| && AssignedTo(filename, stale, i, scope, renames, names) && to == FreeName(filename, names)
    ensures AssignedTo(
      filename, stale, i + 1, scope, renames + [Rename(stale[i].id, stale[i].fileId, to)], names + {to})
  {
    AssignSnoc(filename, stale, i, scope, renames, to);
  }

  lemma AssignEnds(filename: string, stale: seq<GroupFile>, scope: set<string>)
    ensures AssignedTo(filename, stale, 0, scope, [], scope)
    ensures forall renames, names :: AssignedTo(filename, stale, |stale|, scope, renames, names) ==>
      renames == AssignNames(filename, stale, scope)
  {
    assert stale[..|stale|] == stale;
  }

  method AssignAll(filename: string, stale: seq<GroupFile>, scope: set<string>) returns (renames: seq<Rename>)
    ensures renames == AssignNames(filename, stale, scope)
  {
    AssignEnds(filename, stale, scope);
    var taken := new NameSet(scope);
    renames := [];
    for i := 0 to |stale|
      invariant AssignedTo(filename, stale, i, scope, renames, taken.names)
      invariant fresh(taken)
    {
      ghost var before := taken.names;
      var to := taken.NextAvailableName(filename);
      AssignNext(filename, stale, i, scope, renames, before, to);
      renames := renames + [Rename(stale[i].id, stale[i].fileId, to)];
    }
  }

  class FileCollection {
    var docs: Db

    constructor (docs: Db)
      ensures this.docs == docs
    {
      this.docs := docs;
    }

    method UpdateOne(r: Rename)
      modifies this
      ensures docs == Renamed(old(docs), r)
    {
      if r.id in docs {
        docs := docs[r.id := docs[r.id].(filename := r.to)];
      }
    }

    /** The write loop of one group; it throws where the fault says. */
    method UpdateAll(renames: seq<Rename>, fault: Fault) returns (ok: bool)
      modifies this
      ensures docs == ApplyRenames(old(docs), Landing(renames, fault))
      ensures ok <==> !fault.WriteFails?
    {
      for i := 0 to |renames|
        invariant docs == ApplyRenames(old(docs), renames[..i])
        invariant fault.WriteFails? ==> i <= fault.landed
      {
        if fault.WriteFails? && fault.landed == i {
          return false;
        }
        assert renames[..i + 1][..i] == renames[..i];
        UpdateOne(renames[i]);
      }
      assert renames[..|renames|] == renames;
      return !fault.WriteFails?;
    }

    method PlanGroup(g: Group) returns (renames: seq<Rename>)
      requires |g.files| > 0
      ensures renames == GroupPlan(docs, g)
    {
      var stale := Stale(g);
      var taken := ScopeNames(docs, g.key);
      renames := AssignAll(g.key.filename, stale, taken);
    }

    method MigrateGroup(st: RunState, g: Group, dryRun: bool, fault: Fault) returns (st': RunState)
      requires docs == st.db && |g.files| > 0
      modifies this
      ensures st' == GroupStep(st, g, dryRun, fault) && docs == st'.db
    {
      if fault.ReadFails? {
        return st.(errors := st.errors + 1);
      }
      var renames := PlanGroup(g);
      if dryRun {
        return Succeed(st, g, renames, docs);
      }
      st' := Execute(st, g, renames, fault);
    }

    method Execute(st: RunState, g: Group, renames: seq<Rename>, fault: Fault) returns (st': RunState)
      requires docs == st.db && !fault.ReadFails?
      modifies this
      ensures st' == Carry(st, g, renames, false, fault) && docs == st'.db
    {
      var ok := UpdateAll(renames, fault);
      if ok {
        return Succeed(st, g, renames, docs);
      }
      return st.(db := docs, errors := st.errors + 1);
    }

    /** The group loop and the final index build. `indexBuilt` reports that the unique index
        could build over the resulting collection. */
    method Migrate(groups: seq<Group>, dryRun: bool, faults: seq<Fault>) returns (st: RunState, indexBuilt: bool)
      requires IsGrouping(docs, groups) && |faults| == |groups|
      modifies this
      ensures NonEmptyGroups(groups)
      ensures st == RunGroups(old(docs), groups, dryRun, faults) && docs == st.db
      ensures indexBuilt <==> !dryRun && st.errors == 0
      ensures indexBuilt ==> Unique(docs)
    {
      NonEmpty(docs, groups);
      st := Fresh(docs);
      for i := 0 to |groups|
        invariant st == RunGroups(old(docs), groups[..i], dryRun, faults[..i]) && docs == st.db
      {
        assert groups[..i + 1][..i] == groups[..i] && faults[..i + 1][..i] == faults[..i];
        st := MigrateGroup(st, groups[i], dryRun, faults[i]);
      }
      assert groups[..|groups|] == groups && faults[..|faults|] == faults;
      if !dryRun && st.errors == 0 {
        MigrationMakesNamesUnique(old(docs), groups, faults, st);
        indexBuilt := Unique(docs);
      } else {
        indexBuilt := false;
      }
    }
  }
}
