/** Admission and extraction of a settled workspace archive. */
module Archive {
  import opened Outcomes
  import opened Trailers

  const MAX_WORKSPACE_BYTES := 67108864
  const MAX_WORKSPACE_ENTRIES := 20000

  /** A name, as the parts between its slashes. */
  type Path = seq<string>

  datatype Kind = Directory | File | Other

  datatype Member = Member(path: Path, kind: Kind, mode: nat, size: int, content: seq<bv8>)

  datatype Entry = Entry(path: Path, mode: nat, content: seq<bv8>, directory: bool)

  datatype Refusal = TooMany | UnsafePath | DirectoryMode | EntryType | TooLarge | Inconsistent | Directories | Conflict

  predicate SafePart(exotic: char -> string, part: string) {
    && part != "" && part != "." && part != ".."
    && (forall i :: 0 <= i < |part| ==> part[i] != '/' && part[i] != '\\' && part[i] != '\0')
    && Fold(exotic, part) != ".git" && Fold(exotic, part) != ".gitmodules"
  }

  predicate SafePath(exotic: char -> string, denied: set<string>, path: Path) {
    && path != [] && (forall i :: 0 <= i < |path| ==> SafePart(exotic, path[i]))
    && path[0][0] != '-' && Fold(exotic, path[0]) !in denied
  }

  function Mode(m: Member): nat {
    m.mode % 0x1000
  }

  /** Where a path leads from a directory of the tree, part by part: `..` climbs, and nothing
      stands above the root. */
  function Walk(at: Path, path: Path): (to: Option<Path>)
    decreases |path|
  {
    if path == [] then Some(at)
    else if path[0] == "" || path[0] == "." then Walk(at, path[1..])
    else if path[0] == ".." then if at == [] then None else Walk(at[..|at| - 1], path[1..])
    else Walk(at + [path[0]], path[1..])
  }

  /** An admitted path leads exactly to its own name below where it starts, never out of it; no
      part of it hides a separator or reads as the repository's own directory. */
  lemma {:induction false} SafePathStaysInside(exotic: char -> string, at: Path, path: Path)
    requires forall i :: 0 <= i < |path| ==> SafePart(exotic, path[i])
    ensures Walk(at, path) == Some(at + path)
    ensures forall i, k :: 0 <= i < |path| && 0 <= k < |path[i]| ==> path[i][k] !in {'/', '\\', '\0'}
    ensures ".git" !in path && ".gitmodules" !in path
    decreases |path|
  {
    if path == [] {
      assert at + path == at;
    } else {
      assert SafePart(exotic, path[0]);
      SafePathStaysInside(exotic, at + [path[0]], path[1..]);
      assert at + [path[0]] + path[1..] == at + path;
    }
    FoldsOfReserved(exotic);
  }

  lemma FoldsOfReserved(exotic: char -> string)
    ensures Fold(exotic, ".git") == ".git" && Fold(exotic, ".gitmodules") == ".gitmodules"
  {
    FoldsTo(exotic, ".git", ".git");
    FoldsTo(exotic, ".gitmodules", ".gitmodules");
  }

  /** What a member may be on its own. */
  predicate Plain(exotic: char -> string, denied: set<string>, m: Member) {
    && SafePath(exotic, denied, m.path)
    && match m.kind
       case Directory => Mode(m) == 0x1ed
       case File => Mode(m) in {0x1a4, 0x1ed} && m.size >= 0 && |m.content| == m.size
       case Other => false
  }

  function FileBytes(members: seq<Member>): int {
    if members == [] then 0
    else FileBytes(members[..|members| - 1])
         + if members[|members| - 1].kind == File then members[|members| - 1].size else 0
  }

  function EntryOf(m: Member): Entry {
    Entry(m.path, Mode(m), if m.kind == Directory then [] else m.content, m.kind == Directory)
  }

  function Entries(members: seq<Member>): seq<Entry> {
    seq(|members|, i requires 0 <= i < |members| => EntryOf(members[i]))
  }

  function FilePaths(entries: seq<Entry>): set<Path> {
    set e | e in entries && !e.directory :: e.path
  }

  function DirectoryPaths(entries: seq<Entry>): set<Path> {
    set e | e in entries && e.directory :: e.path
  }

  /** The proper, non-empty ancestors of some paths. */
  function Ancestors(paths: set<Path>): set<Path> {
    set p, k | p in paths && 0 < k < |p| :: p[..k]
  }

  predicate Distinct(entries: seq<Entry>) {
    forall i, j :: 0 <= i < j < |entries| ==> entries[i].path != entries[j].path
  }

  /** Directories are exactly the proper ancestors of the files, and no path is named twice. */
  ghost predicate Closed(entries: seq<Entry>) {
    && Distinct(entries)
    && (forall i :: 0 <= i < |entries| ==> entries[i].path != [])
    && DirectoryPaths(entries) == Ancestors(FilePaths(entries))
  }

  ghost predicate Admissible(exotic: char -> string, denied: set<string>, members: seq<Member>) {
    && |members| <= MAX_WORKSPACE_ENTRIES
    && (forall i :: 0 <= i < |members| ==> Plain(exotic, denied, members[i]))
    && FileBytes(members) <= MAX_WORKSPACE_BYTES
    && Closed(Entries(members))
  }

  lemma {:induction false} FileBytesGrow(exotic: char -> string, denied: set<string>, members: seq<Member>, n: nat)
    requires n <= |members| && forall i :: 0 <= i < |members| ==> Plain(exotic, denied, members[i])
    ensures FileBytes(members[..n]) <= FileBytes(members)
    decreases |members| - n
  {
    if n < |members| {
      assert members[..n + 1][..n] == members[..n];
      FileBytesGrow(exotic, denied, members, n + 1);
    } else {
      assert members[..n] == members;
    }
  }

  /** The parents of the files and then all parents of those: every proper ancestor. */
  lemma RequiredIsAncestors(files: set<Path>)
    ensures var parents := set p | p in files && |p| > 1 :: p[..|p| - 1];
            parents + Ancestors(parents) == Ancestors(files)
  {
    var parents := set p | p in files && |p| > 1 :: p[..|p| - 1];
    forall q | q in Ancestors(parents) ensures q in Ancestors(files) {
      var p, k :| p in parents && 0 < k < |p| && q == p[..k];
      var f :| f in files && |f| > 1 && p == f[..|f| - 1];
      assert q == f[..k];
    }
    forall q | q in Ancestors(files) ensures q in parents + Ancestors(parents) {
      var f, k :| f in files && 0 < k < |f| && q == f[..k];
      if k < |f| - 1 {
        assert f[..|f| - 1] in parents && q == f[..|f| - 1][..k];
      }
    }
  }

  /** What a prefix of the members must satisfy. */
  ghost predicate Fine(exotic: char -> string, denied: set<string>, members: seq<Member>) {
    && (forall i :: 0 <= i < |members| ==> Plain(exotic, denied, members[i]))
    && FileBytes(members) <= MAX_WORKSPACE_BYTES && Distinct(Entries(members))
  }

  predicate Repeats(members: seq<Member>, n: nat)
    requires n < |members|
  {
    exists k :: 0 <= k < n && members[k].path == members[n].path
  }

  /** One member on: what it adds, and that nothing later makes up for a failure. */
  lemma FineStep(exotic: char -> string, denied: set<string>, members: seq<Member>, n: nat)
    requires n < |members| && Fine(exotic, denied, members[..n])
    ensures Entries(members[..n + 1]) == Entries(members[..n]) + [EntryOf(members[n])]
    ensures FileBytes(members[..n + 1])
            == FileBytes(members[..n]) + if members[n].kind == File then members[n].size else 0
    ensures Fine(exotic, denied, members[..n + 1])
            <==> && Plain(exotic, denied, members[n]) && !Repeats(members, n)
                 && FileBytes(members[..n + 1]) <= MAX_WORKSPACE_BYTES
    ensures Fine(exotic, denied, members) ==> Fine(exotic, denied, members[..n + 1])
  {
    var next := members[..n + 1];
    assert next[..n] == members[..n] && next[n] == members[n];
    assert Entries(next) == Entries(members[..n]) + [EntryOf(members[n])];
    RepeatsIff(members, n);
    if Fine(exotic, denied, members) { FinePrefix(exotic, denied, members, n + 1); }
  }

  lemma FinePrefix(exotic: char -> string, denied: set<string>, members: seq<Member>, n: nat)
    requires n <= |members| && Fine(exotic, denied, members)
    ensures Fine(exotic, denied, members[..n])
  {
    FileBytesGrow(exotic, denied, members, n);
    assert forall i :: 0 <= i < n ==> Entries(members[..n])[i] == Entries(members)[i];
  }

  lemma RepeatsIff(members: seq<Member>, n: nat)
    requires n < |members| && Distinct(Entries(members[..n]))
    ensures Distinct(Entries(members[..n + 1])) <==> !Repeats(members, n)
  {
    var past, next := Entries(members[..n]), Entries(members[..n + 1]);
    assert forall i :: 0 <= i < n ==> next[i] == past[i];
    assert next[n].path == members[n].path && forall i :: 0 <= i < n ==> next[i].path == members[i].path;
  }

  lemma SeenIffRepeats(members: seq<Member>, n: nat, entries: seq<Entry>, seen: set<Path>)
    requires n < |members| && entries == Entries(members[..n]) && seen == set e | e in entries :: e.path
    ensures members[n].path in seen <==> Repeats(members, n)
  {
    assert forall k :: 0 <= k < n ==> entries[k].path == members[k].path && entries[k] in entries;
    if members[n].path in seen {
      var e :| e in entries && e.path == members[n].path;
      var k :| 0 <= k < n && entries[k] == e;
      assert members[k].path == members[n].path;
    }
  }

  /** The loop over members. It admits an archive if and only if it is admissible. */
  method ValidatedEntries(exotic: char -> string, denied: set<string>, members: seq<Member>)
    returns (r: Result<seq<Entry>, Refusal>)
    ensures r.Ok? <==> Admissible(exotic, denied, members)
    ensures r.Ok? ==> r.value == Entries(members)
    ensures r.Ok? ==>
              && |r.value| == |members|
              && forall i :: 0 <= i < |members| ==>
                   && r.value[i].path == members[i].path && SafePath(exotic, denied, members[i].path)
                   && if r.value[i].directory
                      then members[i].kind == Directory && r.value[i].content == [] && r.value[i].mode == 0x1ed
                      else && members[i].kind == File && r.value[i].content == members[i].content
                           && |members[i].content| == members[i].size && r.value[i].mode in {0x1a4, 0x1ed}
  {
    if |members| > MAX_WORKSPACE_ENTRIES { return Err(TooMany); }
    var entries: seq<Entry> := [];
    var seen: set<Path> := {};
    var total := 0;
    for i := 0 to |members|
      invariant Fine(exotic, denied, members[..i])
      invariant entries == Entries(members[..i]) && total == FileBytes(members[..i])
      invariant seen == set e | e in entries :: e.path
    {
      var m := members[i];
      FineStep(exotic, denied, members, i);
      SeenIffRepeats(members, i, entries, seen);
      if m.path in seen || !SafePath(exotic, denied, m.path) { return Err(UnsafePath); }
      seen := seen + {m.path};
      if m.kind == Directory {
        if Mode(m) != 0x1ed { return Err(DirectoryMode); }
      } else {
        if m.kind != File || Mode(m) !in {0x1a4, 0x1ed} { return Err(EntryType); }
        total := total + m.size;
        if m.size < 0 || total > MAX_WORKSPACE_BYTES { return Err(TooLarge); }
        if |m.content| != m.size { return Err(Inconsistent); }
      }
      entries := entries + [EntryOf(m)];
    }
    assert members[..|members|] == members;
    RequiredIsAncestors(FilePaths(entries));
    var parents := set p | p in FilePaths(entries) && |p| > 1 :: p[..|p| - 1];
    if DirectoryPaths(entries) != parents + Ancestors(parents) { return Err(Directories); }
    NoEmptyPath(exotic, denied, members);
    r := Ok(entries);
  }

  lemma NoEmptyPath(exotic: char -> string, denied: set<string>, members: seq<Member>)
    requires forall i :: 0 <= i < |members| ==> Plain(exotic, denied, members[i])
    ensures forall i :: 0 <= i < |members| ==> Entries(members)[i].path != []
  {
    forall i | 0 <= i < |members| ensures Entries(members)[i].path != [] {
      assert Plain(exotic, denied, members[i]);
    }
  }

  // ---------------------------------------------------------------- prefix freedom

  predicate ProperPrefix(a: Path, b: Path) {
    |a| < |b| && b[..|a|] == a
  }

  lemma SameEntry(entries: seq<Entry>, e: Entry, e': Entry)
    requires Distinct(entries) && e in entries && e' in entries && e.path == e'.path
    ensures e == e'
  {
    var i :| 0 <= i < |entries| && entries[i] == e;
    var j :| 0 <= j < |entries| && entries[j] == e';
    assert i == j;
  }

  /** Whatever stands above an admitted entry is an admitted directory. */
  lemma AncestorIsDirectory(entries: seq<Entry>, e: Entry, k: nat) returns (d: Entry)
    requires Closed(entries) && e in entries && 0 < k < |e.path|
    ensures d in entries && d.directory && d.path == e.path[..k]
  {
    var files := FilePaths(entries);
    if e.directory {
      assert e.path in DirectoryPaths(entries);
      var f, n :| f in files && 0 < n < |f| && e.path == f[..n];
      assert e.path[..k] == f[..k];
      assert e.path[..k] in Ancestors(files);
    } else {
      assert e.path in files && e.path[..k] in Ancestors(files);
    }
    assert e.path[..k] in DirectoryPaths(entries);
    d :| d in entries && d.directory && d.path == e.path[..k];
  }

  /** No admitted file lies above anything admitted, and every admitted directory has a file
      below it. */
  lemma FilesArePrefixFree(entries: seq<Entry>, e: Entry, f: Entry)
    requires Closed(entries) && e in entries && f in entries && !f.directory
    ensures !ProperPrefix(f.path, e.path)
    ensures e.directory ==> exists g :: g in entries && !g.directory && ProperPrefix(e.path, g.path)
  {
    if ProperPrefix(f.path, e.path) {
      var d := AncestorIsDirectory(entries, e, |f.path|);
      SameEntry(entries, d, f);
    }
    if e.directory {
      assert e.path in DirectoryPaths(entries);
      var p, n :| p in FilePaths(entries) && 0 < n < |p| && e.path == p[..n];
      var g :| g in entries && !g.directory && g.path == p;
      assert ProperPrefix(e.path, g.path);
    }
  }

  // ---------------------------------------------------------------- extraction

  datatype Node = Folder | Text(content: seq<bv8>, mode: nat)

  function NodeOf(e: Entry): Node {
    if e.directory then Folder else Text(e.content, e.mode)
  }

  /** Nothing is staged but admitted entries, each as admitted. */
  ghost predicate Faithful(tree: map<Path, Node>, entries: seq<Entry>) {
    forall p :: p in tree ==> exists e :: e in entries && e.path == p && tree[p] == NodeOf(e)
  }

  /** Create a directory and whatever is missing above it; anything that is not a directory on
      the way is an error. */
  method MakeDirectories(tree: map<Path, Node>, path: Path) returns (r: Result<map<Path, Node>, Refusal>)
    ensures r.Ok? <==> forall k :: 0 < k <= |path| && path[..k] in tree ==> tree[path[..k]] == Folder
    ensures r.Ok? ==> forall k :: 0 < k <= |path| ==> path[..k] in r.value && r.value[path[..k]] == Folder
    ensures r.Ok? ==> tree.Keys <= r.value.Keys
    ensures r.Ok? ==> forall p :: p in r.value ==>
              if p in tree then r.value[p] == tree[p]
              else r.value[p] == Folder && exists k :: 0 < k <= |path| && p == path[..k]
  {
    var out := tree;
    for n := 0 to |path|
      invariant forall k :: 0 < k <= n ==> path[..k] in out && out[path[..k]] == Folder
      invariant tree.Keys <= out.Keys
      invariant forall p :: p in out ==>
                  if p in tree then out[p] == tree[p] else out[p] == Folder && exists k :: 0 < k <= n && p == path[..k]
    {
      var here := path[..n + 1];
      if here in out && out[here] != Folder {
        assert here in tree;
        return Err(Conflict);
      }
      out := out[here := Folder];
    }
    r := Ok(out);
  }

  /** The directories an entry needs, itself included when it is one. */
  function Above(e: Entry): Path
    requires e.path != []
  {
    if e.directory then e.path else e.path[..|e.path| - 1]
  }

  lemma AboveIsDirectory(entries: seq<Entry>, e: Entry, k: nat) returns (d: Entry)
    requires Closed(entries) && e in entries && e.path != [] && 0 < k <= |Above(e)|
    ensures d in entries && d.directory && d.path == Above(e)[..k]
  {
    if k == |e.path| {
      d := e;
      assert Above(e)[..k] == e.path;
    } else {
      d := AncestorIsDirectory(entries, e, k);
    }
  }

  lemma RoomAbove(tree: map<Path, Node>, entries: seq<Entry>, e: Entry)
    requires Closed(entries) && Faithful(tree, entries) && e in entries && e.path != []
    ensures forall k :: 0 < k <= |Above(e)| && Above(e)[..k] in tree ==> tree[Above(e)[..k]] == Folder
  {
    forall k | 0 < k <= |Above(e)| && Above(e)[..k] in tree ensures tree[Above(e)[..k]] == Folder {
      var d := AboveIsDirectory(entries, e, k);
      var e' :| e' in entries && e'.path == Above(e)[..k] && tree[Above(e)[..k]] == NodeOf(e');
      SameEntry(entries, d, e');
    }
  }

  lemma FaithfulAbove(tree: map<Path, Node>, tree': map<Path, Node>, entries: seq<Entry>, e: Entry)
    requires Closed(entries) && Faithful(tree, entries) && e in entries && e.path != []
    requires forall p :: p in tree' ==>
               if p in tree then tree'[p] == tree[p]
               else tree'[p] == Folder && exists k :: 0 < k <= |Above(e)| && p == Above(e)[..k]
    ensures Faithful(tree', entries)
  {
    forall p | p in tree' ensures exists e' :: e' in entries && e'.path == p && tree'[p] == NodeOf(e') {
      if p !in tree {
        var k :| 0 < k <= |Above(e)| && p == Above(e)[..k];
        var d := AboveIsDirectory(entries, e, k);
        assert tree'[p] == NodeOf(d);
      }
    }
  }

  lemma NotStaged(tree: map<Path, Node>, entries: seq<Entry>, i: nat)
    requires Closed(entries) && Faithful(tree, entries) && i < |entries| && !entries[i].directory
    requires forall p :: p in tree && tree[p] != Folder ==> exists k :: 0 <= k < i && entries[k].path == p
    ensures entries[i].path !in tree
  {
    var p := entries[i].path;
    forall e | e in entries && e.path == p ensures NodeOf(e) != Folder {
      SameEntry(entries, e, entries[i]);
    }
  }

  /** Extraction in whatever order the entries come: no conflict, and exactly the admitted tree. */
  method Extract(entries: seq<Entry>) returns (r: Result<map<Path, Node>, Refusal>)
    requires Closed(entries)
    ensures r.Ok? && Faithful(r.value, entries)
    ensures forall e :: e in entries ==> e.path in r.value && r.value[e.path] == NodeOf(e)
  {
    var tree: map<Path, Node> := map[];
    for i := 0 to |entries|
      invariant Faithful(tree, entries)
      invariant forall k :: 0 <= k < i ==> entries[k].path in tree && tree[entries[k].path] == NodeOf(entries[k])
      invariant forall p :: p in tree && tree[p] != Folder ==> exists k :: 0 <= k < i && entries[k].path == p
    {
      var e := entries[i];
      RoomAbove(tree, entries, e);
      var made := MakeDirectories(tree, Above(e));
      if made.Err? { return Err(Conflict); }
      FaithfulAbove(tree, made.value, entries, e);
      assert Above(e)[..|Above(e)|] == Above(e);
      tree := made.value;
      if !e.directory {
        NotStaged(tree, entries, i);
        if e.path in tree { return Err(Conflict); }
        tree := tree[e.path := Text(e.content, e.mode)];
      }
    }
    r := Ok(tree);
  }

  // ---------------------------------------------------------------- independence of entry order

  lemma {:induction false} DistinctCounts(entries: seq<Entry>, e: Entry)
    requires Distinct(entries)
    ensures multiset(entries)[e] <= 1
  {
    if entries != [] {
      var n := |entries| - 1;
      DistinctCounts(entries[..n], e);
      assert entries == entries[..n] + [entries[n]];
      assert forall k :: 0 <= k < n ==> entries[..n][k] == entries[k];
    }
  }

  lemma RepeatCounts(entries: seq<Entry>, i: nat, j: nat)
    requires i < j < |entries| && entries[i] == entries[j]
    ensures multiset(entries)[entries[i]] >= 2
  {
    assert entries == entries[..j] + entries[j..];
    assert entries[..j][i] == entries[i] && entries[j..][0] == entries[j];
    assert entries[i] in multiset(entries[..j]) && entries[i] in multiset(entries[j..]);
  }

  /** An archive stays extractable, with the same result, however its entries are ordered. */
  lemma OrderDoesNotMatter(entries: seq<Entry>, entries': seq<Entry>, tree: map<Path, Node>, tree': map<Path, Node>)
    requires Closed(entries) && multiset(entries) == multiset(entries')
    ensures Closed(entries')
    ensures && Faithful(tree, entries) && (forall e :: e in entries ==> e.path in tree && tree[e.path] == NodeOf(e))
            && Faithful(tree', entries')
            && (forall e :: e in entries' ==> e.path in tree' && tree'[e.path] == NodeOf(e))
            ==> tree == tree'
  {
    forall e ensures e in entries <==> e in entries' {
      assert e in entries <==> e in multiset(entries);
      assert e in entries' <==> e in multiset(entries');
    }
    forall i, j | 0 <= i < j < |entries'| ensures entries'[i].path != entries'[j].path {
      assert entries'[i] in entries' && entries'[j] in entries';
      if entries'[i].path == entries'[j].path {
        SameEntry(entries, entries'[i], entries'[j]);
        RepeatCounts(entries', i, j);
        DistinctCounts(entries, entries'[i]);
      }
    }
    assert FilePaths(entries) == FilePaths(entries') && DirectoryPaths(entries) == DirectoryPaths(entries');
    assert forall i :: 0 <= i < |entries'| ==> entries'[i] in entries';
  }
}
