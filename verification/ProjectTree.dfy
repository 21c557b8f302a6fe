/**
 Listing a project for a checkpoint. Directories are walked depth first with their entries
 in name order, and the checkpoint contract then asks for canonical paths in string order. The
 two orders are not the same, and a file system allows more names; this module says exactly
 when a project can be captured.
 */
module ProjectTree {
  import opened Wrappers
  import opened PathOrder
  import opened ProjectPaths

  datatype Node = File(hash: string) | Dir(entries: seq<Entry>)

  datatype Entry = Entry(name: string, node: Node)

  datatype CheckpointFile = CheckpointFile(path: string, hash: string)

  datatype Checkpoint = Checkpoint(project: string, files: seq<CheckpointFile>)

  function Paths(files: seq<CheckpointFile>): (paths: seq<string>)
    ensures |paths| == |files|
  {
    seq(|files|, i requires 0 <= i < |files| => files[i].path)
  }

  /** The file index rule of `ProjectCheckpoint`. */
  ghost predicate ValidFiles(files: seq<CheckpointFile>) {
    Ascending(Paths(files))
  }

  /** `_is_excluded`. */
  predicate Excluded(path: string, excludedPaths: seq<string>) {
    Under(path, ".agent") || exists e :: e in excludedPaths && Under(path, e)
  }

  function Skip(excludedPaths: seq<string>): string -> bool {
    p => Excluded(p, excludedPaths)
  }

  function Base(prefix: string): string {
    if prefix == "" then "" else prefix + "/"
  }

  function Listed(prefix: string, entries: seq<Entry>, skip: string -> bool): seq<CheckpointFile>
    decreases entries
  {
    if entries == [] then []
    else
      var last := entries[|entries| - 1];
      var path := Base(prefix) + last.name;
      var own :=
        if skip(path) then []
        else
          match last.node
          case File(hash) => [CheckpointFile(path, hash)]
          case Dir(children) => Listed(path, children, skip);
      Listed(prefix, entries[..|entries| - 1], skip) + own
  }

  /** What one entry contributes. */
  function Visited(prefix: string, entry: Entry, skip: string -> bool): seq<CheckpointFile> {
    Listed(prefix, [entry], skip)
  }

  lemma {:induction false} VisitedIs(prefix: string, entry: Entry, skip: string -> bool)
    ensures Visited(prefix, entry, skip)
            == var path := Base(prefix) + entry.name;
               if skip(path) then []
               else if entry.node.File? then [CheckpointFile(path, entry.node.hash)]
               else Listed(path, entry.node.entries, skip)
  {
    var path := Base(prefix) + entry.name;
    var own :=
      if skip(path) then []
      else if entry.node.File? then [CheckpointFile(path, entry.node.hash)]
      else Listed(path, entry.node.entries, skip);
    var one := [entry];
    assert one[0] == entry && one[..0] == [];
    assert Listed(prefix, one, skip) == Listed(prefix, one[..0], skip) + own;
  }

  lemma {:induction false} ListedSplits(prefix: string, entries: seq<Entry>, skip: string -> bool)
    requires entries != []
    ensures Listed(prefix, entries, skip)
            == Listed(prefix, entries[..|entries| - 1], skip) + Visited(prefix, entries[|entries| - 1], skip)
  {
    VisitedIs(prefix, entries[|entries| - 1], skip);
  }

  /** What a file system gives, sorted by name: proper distinct names at every level. */
  ghost predicate WellNamed(entries: seq<Entry>) {
    && (forall i :: 0 <= i < |entries| ==> ProperName(entries[i].name))
    && (forall i, j :: 0 <= i < j < |entries| ==> Before(entries[i].name, entries[j].name))
    && (forall i :: 0 <= i < |entries| && entries[i].node.Dir? ==> WellNamed(entries[i].node.entries))
  }

  lemma {:induction false} ListedGrows(prefix: string, entries: seq<Entry>, skip: string -> bool, i: nat, before: seq<CheckpointFile>)
    requires i < |entries|
    ensures before + Listed(prefix, entries[..i + 1], skip)
            == (before + Listed(prefix, entries[..i], skip)) + Visited(prefix, entries[i], skip)
  {
    var upTo := entries[..i + 1];
    assert upTo[..|upTo| - 1] == entries[..i] && upTo[|upTo| - 1] == entries[i];
    ListedSplits(prefix, upTo, skip);
  }

  /** The walk of `visit`, appending to one list. */
  class Walk {
    var files: seq<CheckpointFile>

    constructor ()
      ensures files == []
    {
      files := [];
    }

    method Visit(prefix: string, entries: seq<Entry>, skip: string -> bool)
      modifies this
      ensures files == old(files) + Listed(prefix, entries, skip)
      decreases entries, 0
    {
      var i := 0;
      while i < |entries|
        invariant 0 <= i <= |entries|
        invariant files == old(files) + Listed(prefix, entries[..i], skip)
      {
        ListedGrows(prefix, entries, skip, i, old(files));
        VisitEntry(prefix, entries[i], skip);
        i := i + 1;
      }
      assert entries[..i] == entries;
    }

    method VisitEntry(prefix: string, entry: Entry, skip: string -> bool)
      modifies this
      ensures files == old(files) + Visited(prefix, entry, skip)
      decreases entry.node, 1
    {
      VisitedIs(prefix, entry, skip);
      var path := Base(prefix) + entry.name;
      if !skip(path) {
        match entry.node
        case File(hash) => files := files + [CheckpointFile(path, hash)];
        case Dir(children) => Visit(path, children, skip);
      }
    }
  }

  // ----------------------------------------------------------- the two orders

  /** A non-empty directory and a later sibling that extends its name below the slash. */
  predicate Clash(prefix: string, a: Entry, b: Entry, skip: string -> bool) {
    && a.node.Dir? && Visited(prefix, a, skip) != [] && Visited(prefix, b, skip) != []
    && ExtendsBelowSlash(a.name, b.name)
  }

  predicate ExtendsBelowSlash(name: string, longer: string) {
    name < longer && longer[|name|] < '/'
  }

  ghost predicate LastClashesWithNone(prefix: string, entries: seq<Entry>, skip: string -> bool)
    requires entries != []
  {
    forall j :: 0 <= j < |entries| - 1 ==> !Clash(prefix, entries[j], entries[|entries| - 1], skip)
  }

  ghost predicate Orderly(prefix: string, entries: seq<Entry>, skip: string -> bool)
    decreases entries
  {
    entries != [] ==>
      var last := entries[|entries| - 1];
      var path := Base(prefix) + last.name;
      && Orderly(prefix, entries[..|entries| - 1], skip)
      && LastClashesWithNone(prefix, entries, skip)
      && (last.node.Dir? && !skip(path) ==> Orderly(path, last.node.entries, skip))
  }

  /** A file contributes its own path, a directory paths below it. */
  predicate OwnPath(prefix: string, entry: Entry, path: string) {
    var own := Base(prefix) + entry.name;
    if entry.node.Dir? then own + "/" <= path else path == own
  }

  lemma {:induction false} ListedPaths(prefix: string, entries: seq<Entry>, skip: string -> bool, file: CheckpointFile)
    requires WellNamed(entries) && file in Listed(prefix, entries, skip)
    ensures exists j :: 0 <= j < |entries| && OwnPath(prefix, entries[j], file.path)
                        && file in Visited(prefix, entries[j], skip)
    decreases entries, 0
  {
    var n := |entries| - 1;
    var init := entries[..n];
    ListedSplits(prefix, entries, skip);
    if file in Visited(prefix, entries[n], skip) {
      VisitedPaths(prefix, entries[n], skip, file);
    } else {
      ListedPaths(prefix, init, skip, file);
      var j :| 0 <= j < n && OwnPath(prefix, init[j], file.path) && file in Visited(prefix, init[j], skip);
      assert init[j] == entries[j];
    }
  }

  lemma {:induction false} OwnBelow(own: string, child: Entry, path: string)
    requires own != "" && OwnPath(own, child, path)
    ensures own + "/" <= path
  {
    var full := own + "/" + child.name;
    assert own + "/" <= full;
    if child.node.Dir? { assert full <= full + "/"; }
  }

  lemma {:induction false} VisitedPaths(prefix: string, entry: Entry, skip: string -> bool, file: CheckpointFile)
    requires entry.name != "" && (entry.node.Dir? ==> WellNamed(entry.node.entries))
    requires file in Visited(prefix, entry, skip)
    ensures OwnPath(prefix, entry, file.path)
    decreases entry.node, 1
  {
    VisitedIs(prefix, entry, skip);
    var own := Base(prefix) + entry.name;
    if entry.node.Dir? {
      ListedPaths(own, entry.node.entries, skip, file);
      var j :| 0 <= j < |entry.node.entries| && OwnPath(own, entry.node.entries[j], file.path);
      OwnBelow(own, entry.node.entries[j], file.path);
    }
  }

  predicate ProperName(name: string) {
    name != "" && '/' !in name
  }

  lemma ExtendedName(m: string, extension: string, restM: string, restN: string)
    requires extension != "" && extension[0] != '/' && (restM == "" || restM[0] == '/')
    ensures Before(m + restM, m + extension + restN) <==> !(restM != "" && extension[0] < '/')
  {
    assert m + extension + restN == m + (extension + restN);
    CommonPrefix(m, restM, extension + restN);
  }

  lemma NamesOrder(m: string, n: string, restM: string, restN: string)
    requires ProperName(n) && Before(m, n) && (restM == "" || restM[0] == '/')
    ensures Before(m + restM, n + restN) <==> !(restM != "" && ExtendsBelowSlash(m, n))
  {
    if m <= n {
      Irreflexive(m);
      var extension := n[|m|..];
      assert n == m + extension && m + "" == m;
      assert extension[0] in n;
      ExtendedName(m, extension, restM, restN);
    } else {
      Diverge(m, n, restM, restN);
    }
  }

  lemma OwnRest(prefix: string, entry: Entry, path: string) returns (rest: string)
    requires OwnPath(prefix, entry, path)
    ensures path == Base(prefix) + (entry.name + rest)
    ensures if entry.node.Dir? then rest != "" && rest[0] == '/' else rest == ""
  {
    var own := Base(prefix) + entry.name;
    rest := path[|own|..];
    assert path == own + rest;
    if entry.node.Dir? { assert path[|own|] == (own + "/")[|own|]; }
  }

  /** Two siblings' paths are in string order unless the pair has the shape of a clash. */
  lemma PairOrder(prefix: string, a: Entry, b: Entry, x: string, y: string)
    requires ProperName(b.name) && Before(a.name, b.name)
    requires OwnPath(prefix, a, x) && OwnPath(prefix, b, y)
    ensures Before(x, y) <==> !(a.node.Dir? && ExtendsBelowSlash(a.name, b.name))
  {
    var restA := OwnRest(prefix, a, x);
    var restB := OwnRest(prefix, b, y);
    NamesOrder(a.name, b.name, restA, restB);
    CommonPrefix(Base(prefix), a.name + restA, b.name + restB);
  }

  ghost predicate AllBefore(f: seq<CheckpointFile>, g: seq<CheckpointFile>) {
    forall x, y :: x in f && y in g ==> Before(x.path, y.path)
  }

  lemma AscendingConcat(f: seq<CheckpointFile>, g: seq<CheckpointFile>)
    ensures ValidFiles(f + g)
            <==> ValidFiles(f) && ValidFiles(g) && AllBefore(f, g)
  {
    var p, q, r := Paths(f), Paths(g), Paths(f + g);
    assert r == p + q;
    if ValidFiles(f + g) {
      forall i, j | 0 <= i < j < |p| ensures Before(p[i], p[j]) { assert r[i] == p[i] && r[j] == p[j]; }
      forall i, j | 0 <= i < j < |q| ensures Before(q[i], q[j]) {
        assert r[|p| + i] == q[i] && r[|p| + j] == q[j];
      }
      forall x, y | x in f && y in g ensures Before(x.path, y.path) {
        var i :| 0 <= i < |f| && f[i] == x;
        var j :| 0 <= j < |g| && g[j] == y;
        assert r[i] == x.path && r[|p| + j] == y.path;
      }
    }
    if ValidFiles(f) && ValidFiles(g) && AllBefore(f, g) {
      forall i, j | 0 <= i < j < |r| ensures Before(r[i], r[j]) {
        if j < |f| {
          assert r[i] == p[i] && r[j] == p[j];
        } else if i >= |f| {
          assert r[i] == q[i - |f|] && r[j] == q[j - |f|];
        } else {
          assert r[i] == f[i].path && r[j] == g[j - |f|].path;
        }
      }
    }
  }

  lemma BeforeLast(prefix: string, entries: seq<Entry>, skip: string -> bool, x: CheckpointFile, y: CheckpointFile)
    requires entries != [] && WellNamed(entries) && LastClashesWithNone(prefix, entries, skip)
    requires x in Listed(prefix, entries[..|entries| - 1], skip)
    requires y in Visited(prefix, entries[|entries| - 1], skip)
    ensures Before(x.path, y.path)
  {
    var init, last := entries[..|entries| - 1], entries[|entries| - 1];
    VisitedPaths(prefix, last, skip, y);
    ListedPaths(prefix, init, skip, x);
    var j :| 0 <= j < |init| && OwnPath(prefix, init[j], x.path) && x in Visited(prefix, init[j], skip);
    var a := init[j];
    assert a == entries[j];
    PairOrder(prefix, a, last, x.path, y.path);
  }

  lemma ClashBreaks(prefix: string, entries: seq<Entry>, skip: string -> bool, j: nat)
    requires WellNamed(entries) && j < |entries| - 1 && Clash(prefix, entries[j], entries[|entries| - 1], skip)
    ensures !AllBefore(Listed(prefix, entries[..|entries| - 1], skip), Visited(prefix, entries[|entries| - 1], skip))
  {
    var a, b := entries[j], entries[|entries| - 1];
    var x, y := Visited(prefix, a, skip)[0], Visited(prefix, b, skip)[0];
    VisitedPaths(prefix, a, skip, x);
    VisitedPaths(prefix, b, skip, y);
    PairOrder(prefix, a, b, x.path, y.path);
    assert entries[..|entries| - 1][j] == a;
    VisitedIsListed(prefix, entries[..|entries| - 1], skip, j, x);
  }

  /** All earlier paths come before the last entry's exactly when no earlier entry clashes with it. */
  lemma EarlierBeforeLast(prefix: string, entries: seq<Entry>, skip: string -> bool)
    requires entries != [] && WellNamed(entries)
    ensures AllBefore(Listed(prefix, entries[..|entries| - 1], skip), Visited(prefix, entries[|entries| - 1], skip))
            <==> LastClashesWithNone(prefix, entries, skip)
  {
    var init, last := entries[..|entries| - 1], entries[|entries| - 1];
    if LastClashesWithNone(prefix, entries, skip) {
      forall x, y | x in Listed(prefix, init, skip) && y in Visited(prefix, last, skip)
        ensures Before(x.path, y.path)
      {
        BeforeLast(prefix, entries, skip, x, y);
      }
    } else {
      var j :| 0 <= j < |entries| - 1 && Clash(prefix, entries[j], last, skip);
      ClashBreaks(prefix, entries, skip, j);
    }
  }

  lemma {:induction false} VisitedIsListed(prefix: string, entries: seq<Entry>, skip: string -> bool, j: nat,
                                           file: CheckpointFile)
    requires j < |entries| && file in Visited(prefix, entries[j], skip)
    ensures file in Listed(prefix, entries, skip)
  {
    ListedSplits(prefix, entries, skip);
    if j < |entries| - 1 {
      var init := entries[..|entries| - 1];
      assert init[j] == entries[j];
      VisitedIsListed(prefix, init, skip, j, file);
    }
  }

  lemma VisitedValid(prefix: string, entry: Entry, skip: string -> bool)
    ensures var path := Base(prefix) + entry.name;
            ValidFiles(Visited(prefix, entry, skip))
            <==> (entry.node.Dir? && !skip(path) ==> ValidFiles(Listed(path, entry.node.entries, skip)))
  {
    VisitedIs(prefix, entry, skip);
  }

  /**
   The walked paths are in string order exactly when no non-empty directory has a later
   sibling that extends its name with a character below the slash: `src` beside `src.py` or
   `src-old` is refused.
   */
  lemma {:induction false} CapturableIff(prefix: string, entries: seq<Entry>, skip: string -> bool)
    requires WellNamed(entries)
    ensures ValidFiles(Listed(prefix, entries, skip)) <==> Orderly(prefix, entries, skip)
    decreases entries
  {
    if entries != [] {
      var init, last := entries[..|entries| - 1], entries[|entries| - 1];
      var path := Base(prefix) + last.name;
      ListedSplits(prefix, entries, skip);
      AscendingConcat(Listed(prefix, init, skip), Visited(prefix, last, skip));
      EarlierBeforeLast(prefix, entries, skip);
      CapturableIff(prefix, init, skip);
      VisitedValid(prefix, last, skip);
      if last.node.Dir? {
        CapturableIff(path, last.node.entries, skip);
      }
    }
  }

  // ------------------------------------------------------------- what a walk lists

  /** Following the names from these entries leads to a file of that content, past nothing that is skipped. */
  ghost predicate Leads(prefix: string, entries: seq<Entry>, skip: string -> bool, names: seq<string>, hash: string)
    decreases |names|
  {
    names != [] && !skip(Base(prefix) + names[0])
    && exists i :: 0 <= i < |entries| && entries[i].name == names[0]
                   && if |names| == 1 then entries[i].node == File(hash)
                      else entries[i].node.Dir?
                           && Leads(Base(prefix) + names[0], entries[i].node.entries, skip, names[1..], hash)
  }

  lemma JoinBelow(prefix: string, name: string, names: seq<string>)
    requires name != "" && names != []
    ensures Base(Base(prefix) + name) + Join(names) == Base(prefix) + Join([name] + names)
  {
    assert ([name] + names)[1..] == names;
    assert Base(Base(prefix) + name) == Base(prefix) + name + "/";
    assert Base(prefix) + name + "/" + Join(names) == Base(prefix) + (name + "/" + Join(names));
  }

  lemma {:induction false} LeadsMore(prefix: string, init: seq<Entry>, last: Entry, skip: string -> bool, names: seq<string>,
                                     hash: string)
    ensures Leads(prefix, init + [last], skip, names, hash)
            <==> Leads(prefix, init, skip, names, hash) || Leads(prefix, [last], skip, names, hash)
  {
    var all := init + [last];
    assert all[|init|] == last && forall i :: 0 <= i < |init| ==> all[i] == init[i];
    assert [last][0] == last;
  }

  lemma {:induction false} LeadsOne(prefix: string, last: Entry, skip: string -> bool, names: seq<string>, hash: string)
    ensures Leads(prefix, [last], skip, names, hash)
            <==> && names != [] && last.name == names[0] && !skip(Base(prefix) + last.name)
                 && if |names| == 1 then last.node == File(hash)
                    else last.node.Dir? && Leads(Base(prefix) + last.name, last.node.entries, skip, names[1..], hash)
  {
    assert [last][0] == last;
  }

  lemma {:induction false} WellNamedFront(entries: seq<Entry>)
    requires WellNamed(entries) && entries != []
    ensures var last := entries[|entries| - 1];
            && WellNamed(entries[..|entries| - 1]) && last.name != ""
            && (last.node.Dir? ==> WellNamed(last.node.entries))
  {
  }

  lemma {:induction false} ListedMore(prefix: string, init: seq<Entry>, last: Entry, skip: string -> bool)
    ensures Listed(prefix, init + [last], skip) == Listed(prefix, init, skip) + Visited(prefix, last, skip)
  {
    var all := init + [last];
    assert all[..|all| - 1] == init && all[|all| - 1] == last;
    ListedSplits(prefix, all, skip);
  }

  /** The way to a listed file. */
  lemma {:induction false} WayTo(prefix: string, entries: seq<Entry>, skip: string -> bool, file: CheckpointFile)
    returns (names: seq<string>)
    requires WellNamed(entries) && file in Listed(prefix, entries, skip)
    ensures Leads(prefix, entries, skip, names, file.hash) && file.path == Base(prefix) + Join(names)
    decreases entries, 1
  {
    var init, last := entries[..|entries| - 1], entries[|entries| - 1];
    assert init + [last] == entries;
    WellNamedFront(entries);
    ListedMore(prefix, init, last, skip);
    if file in Listed(prefix, init, skip) {
      names := WayTo(prefix, init, skip, file);
    } else {
      names := WayInto(prefix, last, skip, file);
    }
    LeadsMore(prefix, init, last, skip, names, file.hash);
  }

  lemma {:induction false} WayInto(prefix: string, last: Entry, skip: string -> bool, file: CheckpointFile)
    returns (names: seq<string>)
    requires last.name != "" && (last.node.Dir? ==> WellNamed(last.node.entries)) && file in Visited(prefix, last, skip)
    ensures Leads(prefix, [last], skip, names, file.hash) && file.path == Base(prefix) + Join(names)
    decreases last, 0
  {
    VisitedIs(prefix, last, skip);
    if last.node.File? {
      names := [last.name];
    } else {
      var below := WayTo(Base(prefix) + last.name, last.node.entries, skip, file);
      names := [last.name] + below;
      assert names[1..] == below;
      JoinBelow(prefix, last.name, below);
    }
    LeadsOne(prefix, last, skip, names, file.hash);
  }

  lemma {:induction false} WayListed(prefix: string, entries: seq<Entry>, skip: string -> bool, names: seq<string>, hash: string)
    requires WellNamed(entries) && entries != [] && Leads(prefix, entries, skip, names, hash)
    ensures CheckpointFile(Base(prefix) + Join(names), hash) in Listed(prefix, entries, skip)
    decreases entries, 1
  {
    var init, last := entries[..|entries| - 1], entries[|entries| - 1];
    assert init + [last] == entries;
    WellNamedFront(entries);
    ListedMore(prefix, init, last, skip);
    LeadsMore(prefix, init, last, skip, names, hash);
    if Leads(prefix, init, skip, names, hash) {
      WayListed(prefix, init, skip, names, hash);
    } else {
      WayVisited(prefix, last, skip, names, hash);
    }
  }

  lemma {:induction false} WayVisited(prefix: string, last: Entry, skip: string -> bool, names: seq<string>, hash: string)
    requires last.name != "" && (last.node.Dir? ==> WellNamed(last.node.entries)) && Leads(prefix, [last], skip, names, hash)
    ensures CheckpointFile(Base(prefix) + Join(names), hash) in Visited(prefix, last, skip)
    decreases last, 0
  {
    LeadsOne(prefix, last, skip, names, hash);
    VisitedIs(prefix, last, skip);
    if |names| == 1 {
      assert Join(names) == last.name;
    } else {
      WayListed(Base(prefix) + last.name, last.node.entries, skip, names[1..], hash);
      JoinBelow(prefix, last.name, names[1..]);
      assert names == [last.name] + names[1..];
    }
  }

  /** A walk lists exactly the files that names lead to past nothing skipped, each under its path. */
  lemma {:induction false} ListedIff(entries: seq<Entry>, skip: string -> bool, file: CheckpointFile)
    requires WellNamed(entries)
    ensures file in Listed("", entries, skip)
            <==> exists names :: Leads("", entries, skip, names, file.hash) && file.path == Join(names)
  {
    if file in Listed("", entries, skip) {
      var names := WayTo("", entries, skip, file);
      assert file.path == Join(names);
    }
    if names :| Leads("", entries, skip, names, file.hash) && file.path == Join(names) {
      WayListed("", entries, skip, names, file.hash);
      assert "" + Join(names) == file.path;
    }
  }

  // ---------------------------------------------------------- names and paths

  /** `_validate_manifest_path`. */
  predicate ManifestPath(path: string) {
    Canonical(path) && !Under(path, ".agent")
  }

  /** What a walk leaves out, and what no checkpoint may list: everything at or below these directories. */
  lemma SkipIff(excludedPaths: seq<string>, path: string)
    ensures Skip(excludedPaths)(path)
            <==> Split(path)[0] == ".agent" || exists e :: e in excludedPaths && Split(e) <= Split(path)
    ensures ManifestPath(path) <==> Canonical(path) && Split(path)[0] != ".agent"
  {
    AgentFolder();
    UnderIffPrefix(path, ".agent");
    assert Split(".agent") <= Split(path) <==> Split(path)[0] == ".agent";
    forall e | e in excludedPaths ensures Under(path, e) <==> Split(e) <= Split(path) { UnderIffPrefix(path, e); }
  }

  lemma {:induction false} AgentFolder()
    ensures Split(".agent") == [".agent"]
  {
    SplitName(".agent");
  }

  ghost predicate AllAccepted(files: seq<CheckpointFile>) {
    forall f :: f in files ==> ManifestPath(f.path)
  }

  /** What the checkpoint contract asks of a name, given where it stands. */
  predicate UsableEntry(prefix: string, entry: Entry) {
    && UsablePart(entry.name)
    && (prefix == "" ==> !StartsBlank(entry.name))
    && (entry.node.File? ==> !EndsBlank(entry.name))
  }

  /** Every entry that contributes a file has a usable name. */
  ghost predicate UsableNames(prefix: string, entries: seq<Entry>, skip: string -> bool)
    decreases entries
  {
    forall i :: 0 <= i < |entries| && Visited(prefix, entries[i], skip) != [] ==>
                  && UsableEntry(prefix, entries[i])
                  && (entries[i].node.Dir? ==>
                        UsableNames(Base(prefix) + entries[i].name, entries[i].node.entries, skip))
  }

  ghost predicate UsableDirectory(path: string) {
    path == "" || UsableParts(Split(path))
  }

  lemma ChildParts(prefix: string, name: string)
    requires ProperName(name)
    ensures Split(Base(prefix) + name) == (if prefix == "" then [] else Split(prefix)) + [name]
  {
    SplitName(name);
    if prefix == "" {
      assert Base(prefix) + name == name;
    } else {
      SplitConcat(prefix, name);
    }
  }

  lemma ChildUsable(prefix: string, entry: Entry)
    requires ProperName(entry.name) && UsableDirectory(prefix)
    ensures var path := Base(prefix) + entry.name;
            if entry.node.File? then Canonical(path) <==> UsableEntry(prefix, entry)
            else UsableDirectory(path) <==> UsableEntry(prefix, entry)
  {
    ChildParts(prefix, entry.name);
    CanonicalIff(Base(prefix) + entry.name);
  }

  /** Nothing below an unusable directory is accepted. */
  lemma BelowUnusable(directory: string, path: string)
    requires !UsableDirectory(directory) && Under(path, directory)
    ensures !Canonical(path)
  {
    UnderIffPrefix(path, directory);
    CanonicalIff(path);
    var parts, own := Split(path), Split(directory);
    assert forall i :: 0 <= i < |own| ==> own[i] == parts[i];
  }

  lemma {:induction false} ListedNotSkipped(prefix: string, entries: seq<Entry>, skip: string -> bool,
                                            file: CheckpointFile)
    requires file in Listed(prefix, entries, skip)
    ensures !skip(file.path)
    decreases entries
  {
    var last := entries[|entries| - 1];
    ListedSplits(prefix, entries, skip);
    VisitedIs(prefix, last, skip);
    if file in Visited(prefix, last, skip) {
      if last.node.Dir? { ListedNotSkipped(Base(prefix) + last.name, last.node.entries, skip, file); }
    } else {
      ListedNotSkipped(prefix, entries[..|entries| - 1], skip, file);
    }
  }

  ghost predicate AllCanonical(files: seq<CheckpointFile>) {
    forall f :: f in files ==> Canonical(f.path)
  }

  lemma ListedCanonical(prefix: string, entries: seq<Entry>, skip: string -> bool)
    requires WellNamed(entries)
    ensures AllCanonical(Listed(prefix, entries, skip))
            <==> forall i :: 0 <= i < |entries| ==> AllCanonical(Visited(prefix, entries[i], skip))
  {
    var files := Listed(prefix, entries, skip);
    forall i, f | 0 <= i < |entries| && f in Visited(prefix, entries[i], skip) ensures f in files {
      VisitedIsListed(prefix, entries, skip, i, f);
    }
    forall f | f in files ensures exists i :: 0 <= i < |entries| && f in Visited(prefix, entries[i], skip) {
      ListedPaths(prefix, entries, skip, f);
    }
  }

  lemma VisitedCanonical(prefix: string, entry: Entry, skip: string -> bool)
    requires ProperName(entry.name) && (entry.node.Dir? ==> WellNamed(entry.node.entries))
    requires UsableDirectory(prefix) && Visited(prefix, entry, skip) != []
    ensures AllCanonical(Visited(prefix, entry, skip))
            <==> UsableEntry(prefix, entry)
                 && (entry.node.Dir? ==> UsableNames(Base(prefix) + entry.name, entry.node.entries, skip))
    decreases entry.node, 1
  {
    var path := Base(prefix) + entry.name;
    VisitedIs(prefix, entry, skip);
    ChildUsable(prefix, entry);
    if entry.node.Dir? {
      if UsableDirectory(path) {
        CanonicalNames(path, entry.node.entries, skip);
      } else {
        var file := Visited(prefix, entry, skip)[0];
        VisitedPaths(prefix, entry, skip, file);
        BelowUnusable(path, file.path);
        assert file in Visited(prefix, entry, skip);
      }
    } else {
      assert CheckpointFile(path, entry.node.hash) in Visited(prefix, entry, skip);
    }
  }

  lemma {:induction false} CanonicalNames(prefix: string, entries: seq<Entry>, skip: string -> bool)
    requires WellNamed(entries) && UsableDirectory(prefix)
    ensures AllCanonical(Listed(prefix, entries, skip)) <==> UsableNames(prefix, entries, skip)
    decreases entries, 0
  {
    ListedCanonical(prefix, entries, skip);
    forall i | 0 <= i < |entries| && Visited(prefix, entries[i], skip) != []
      ensures AllCanonical(Visited(prefix, entries[i], skip))
              <==> UsableEntry(prefix, entries[i])
                   && (entries[i].node.Dir? ==>
                         UsableNames(Base(prefix) + entries[i].name, entries[i].node.entries, skip))
    {
      VisitedCanonical(prefix, entries[i], skip);
    }
  }

  /**
   The checkpoint contract accepts every walked path exactly when no name on the way to a file
   holds a backslash, a colon or a NUL or is a dot or two, none at the top starts with a blank,
   and no file's name ends with one.
   */
  lemma NamesAcceptedIff(entries: seq<Entry>, excludedPaths: seq<string>)
    requires WellNamed(entries)
    ensures AllAccepted(Listed("", entries, Skip(excludedPaths))) <==> UsableNames("", entries, Skip(excludedPaths))
  {
    var skip := Skip(excludedPaths);
    CanonicalNames("", entries, skip);
    forall f | f in Listed("", entries, skip) ensures !Under(f.path, ".agent") {
      ListedNotSkipped("", entries, skip, f);
    }
  }

  /** The contract of each captured file. */
  method PathsAccepted(files: seq<CheckpointFile>) returns (accepted: bool)
    ensures accepted <==> AllAccepted(files)
  {
    for i := 0 to |files|
      invariant forall k :: 0 <= k < i ==> ManifestPath(files[k].path)
    {
      if !ManifestPath(files[i].path) {
        assert files[i] in files;
        return false;
      }
    }
    accepted := true;
  }

  /** `CheckpointStore.create`, up to the limits: list the files, check each path, then their order. */
  method Create(project: string, entries: seq<Entry>, excludedPaths: seq<string>)
    returns (result: Result<Checkpoint, string>)
    requires WellNamed(entries)
    ensures result.Ok?
            <==> UsableNames("", entries, Skip(excludedPaths)) && Orderly("", entries, Skip(excludedPaths))
    ensures result.Ok? ==> result.value == Checkpoint(project, Listed("", entries, Skip(excludedPaths)))
    ensures result.Err? ==>
              result.error == if UsableNames("", entries, Skip(excludedPaths))
                              then "checkpoint files must use unique sorted paths"
                              else "path must be a canonical project-relative path"
  {
    var skip := Skip(excludedPaths);
    var walk := new Walk();
    walk.Visit("", entries, skip);
    assert walk.files == Listed("", entries, skip);
    NamesAcceptedIff(entries, excludedPaths);
    CapturableIff("", entries, skip);
    var accepted := PathsAccepted(walk.files);
    var sorted := IsAscending(walk.files);
    if !accepted {
      result := Err("path must be a canonical project-relative path");
    } else if sorted {
      result := Ok(Checkpoint(project, walk.files));
    } else {
      result := Err("checkpoint files must use unique sorted paths");
    }
  }

  /** `paths == tuple(sorted(paths)) and len(set(paths)) == len(paths)`. */
  method IsAscending(files: seq<CheckpointFile>) returns (ascending: bool)
    ensures ascending <==> ValidFiles(files)
  {
    var sorted := Sorted(set f | f in files :: f.path);
    var paths := Paths(files);
    ascending := sorted == paths;
    forall p ensures p in sorted <==> p in paths {
      if p in paths {
        var i :| 0 <= i < |paths| && paths[i] == p;
        assert files[i] in files;
      }
      if p in sorted {
        var i :| 0 <= i < |files| && files[i].path == p;
        assert paths[i] == p;
      }
    }
    if Ascending(paths) {
      AscendingUnique(sorted, paths);
      assert ascending;
    }
    assert ascending ==> Ascending(paths);
  }

  lemma {:induction false} SiblingsVisited(outer: string, inner: string, file: string, hash: string, skip: string -> bool)
    requires !skip(Base("") + outer) && !skip(Base(outer) + inner) && !skip(Base("") + file) && Base("") + outer == outer
    ensures Visited("", Entry(outer, Dir([Entry(inner, File(hash))])), skip) != []
    ensures Visited("", Entry(file, File(hash)), skip) != []
  {
    var child := [Entry(inner, File(hash))];
    VisitedIs("", Entry(outer, Dir(child)), skip);
    VisitedIs("", Entry(file, File(hash)), skip);
    ListedSplits(outer, child, skip);
    VisitedIs(outer, child[0], skip);
  }

  lemma {:induction false} ClashDisorders(prefix: string, entries: seq<Entry>, skip: string -> bool, j: nat)
    requires j < |entries| - 1 && Clash(prefix, entries[j], entries[|entries| - 1], skip)
    ensures !Orderly(prefix, entries, skip)
  {
  }

  lemma {:induction false} OneNamed(file: Entry)
    requires file.node.File? && ProperName(file.name)
    ensures WellNamed([file])
  {
  }

  lemma {:induction false} TwoNamed(directory: Entry, file: Entry)
    requires directory.node.Dir? && ProperName(directory.name) && WellNamed(directory.node.entries)
    requires file.node.File? && ProperName(file.name) && Before(directory.name, file.name)
    ensures WellNamed([directory, file])
  {
  }

  /** A project of a directory and a file behind it that clash is well formed and out of order. */
  lemma {:induction false} PairRefused(directory: Entry, file: Entry, skip: string -> bool)
    requires directory.node.Dir? && ProperName(directory.name) && WellNamed(directory.node.entries)
    requires file.node.File? && ProperName(file.name) && Before(directory.name, file.name)
    requires Clash("", directory, file, skip)
    ensures WellNamed([directory, file]) && !Orderly("", [directory, file], skip)
  {
    TwoNamed(directory, file);
    ClashDisorders("", [directory, file], skip, 0);
  }

  lemma {:induction false} SiblingsRefused(outer: string, inner: string, file: string, hash: string, skip: string -> bool)
    requires ProperName(outer) && ProperName(inner) && ProperName(file)
    requires Before(outer, file) && ExtendsBelowSlash(outer, file)
    requires !skip(Base("") + outer) && !skip(Base(outer) + inner) && !skip(Base("") + file) && Base("") + outer == outer
    ensures var entries := [Entry(outer, Dir([Entry(inner, File(hash))])), Entry(file, File(hash))];
            WellNamed(entries) && !Orderly("", entries, skip)
  {
    OneNamed(Entry(inner, File(hash)));
    SiblingsVisited(outer, inner, file, hash, skip);
    PairRefused(Entry(outer, Dir([Entry(inner, File(hash))])), Entry(file, File(hash)), skip);
  }

  /** A project with `src/main` and `src.py` cannot be captured. */
  lemma {:induction false} SiblingRefused(hash: string, skip: string -> bool)
    requires !skip("src") && !skip("src/main") && !skip("src.py")
    ensures var entries := [Entry("src", Dir([Entry("main", File(hash))])), Entry("src.py", File(hash))];
            WellNamed(entries) && !Orderly("", entries, skip)
  {
    NamesExtend();
    SiblingsRefused("src", "main", "src.py", hash, skip);
  }

  /** A single file of either name cannot be captured, although its project is in order. */
  lemma NameRefused(name: string, hash: string, skip: string -> bool)
    requires name == "a:b" || name == " notes.txt"
    requires !skip(name)
    ensures var entries := [Entry(name, File(hash))];
            WellNamed(entries) && Orderly("", entries, skip) && !UsableNames("", entries, skip)
  {
    var entries := [Entry(name, File(hash))];
    VisitedIs("", entries[0], skip);
    assert Base("") + name == name;
    assert entries[..0] == [] && entries[0].name == name;
    assert name == "a:b" ==> name[1] == ':';
    assert name == " notes.txt" ==> name[0] == ' ';
  }

  lemma NamesExtend()
    ensures ProperName("src") && ProperName("main") && ProperName("src.py")
    ensures Before("src", "src.py") && ExtendsBelowSlash("src", "src.py")
    ensures Base("") + "src" == "src" && Base("") + "src.py" == "src.py" && Base("src") + "main" == "src/main"
  {
  }
}
