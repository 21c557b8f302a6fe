/**
 Project-relative paths: which strings are accepted, and what the string test for "this path
 or something below it" means.
 */
module ProjectPaths {
  import opened Wrappers
  import opened PythonText

  /** `path.split("/")`. */
  function Split(path: string): (parts: seq<string>)
    ensures parts != []
  {
    if path == "" then [""]
    else if path[0] == '/' then [""] + Split(path[1..])
    else
      var rest := Split(path[1..]);
      [[path[0]] + rest[0]] + rest[1..]
  }

  /** `"/".join(parts)`. */
  function Join(parts: seq<string>): string {
    if parts == [] then ""
    else if |parts| == 1 then parts[0]
    else parts[0] + "/" + Join(parts[1..])
  }

  predicate PlainPart(part: string) {
    part != "" && part != "." && part != ".."
  }

  /** No character that an accepted path must not hold. */
  predicate Clean(text: string) {
    '\\' !in text && ':' !in text && '\0' !in text
  }

  /** `require_project_relative_path`. */
  predicate Canonical(path: string) {
    && path != "" && path == Strip(path)
    && !("/" <= path)
    && Clean(path)
    && forall i :: 0 <= i < |Split(path)| ==> PlainPart(Split(path)[i])
  }

  /** `path == directory or path.startswith(f"{directory}/")`. */
  predicate Under(path: string, directory: string) {
    path == directory || directory + "/" <= path
  }

  predicate Approved(path: string, targets: seq<string>) {
    exists t :: t in targets && Under(path, t)
  }

  // ----------------------------------------------------------------- components

  /** What one more character in front does to the components. */
  function Prepend(c: char, parts: seq<string>): seq<string>
    requires parts != []
  {
    if c == '/' then [""] + parts else [[c] + parts[0]] + parts[1..]
  }

  lemma SplitFirst(c: char, rest: string)
    ensures Split([c] + rest) == Prepend(c, Split(rest))
  {
  }

  lemma JoinPrepend(c: char, parts: seq<string>)
    requires parts != []
    ensures Join(Prepend(c, parts)) == [c] + Join(parts)
  {
    if c == '/' {
      assert ([""] + parts)[1..] == parts;
      assert "" + "/" + Join(parts) == ['/'] + Join(parts);
    } else {
      assert Prepend(c, parts)[1..] == parts[1..];
      if |parts| > 1 {
        assert ([c] + parts[0]) + "/" + Join(parts[1..]) == [c] + (parts[0] + "/" + Join(parts[1..]));
      }
    }
  }

  lemma {:induction false} JoinSplit(path: string)
    ensures Join(Split(path)) == path
  {
    if path != "" {
      assert path == [path[0]] + path[1..];
      JoinSplit(path[1..]);
      SplitFirst(path[0], path[1..]);
      JoinPrepend(path[0], Split(path[1..]));
    }
  }

  lemma {:induction false} JoinConcat(a: seq<string>, b: seq<string>)
    requires a != [] && b != []
    ensures Join(a + b) == Join(a) + "/" + Join(b)
  {
    if |a| == 1 {
      assert (a + b)[1..] == b;
    } else {
      JoinConcat(a[1..], b);
      assert (a + b)[1..] == a[1..] + b;
    }
  }

  lemma {:induction false} SplitConcat(a: string, b: string)
    ensures Split(a + "/" + b) == Split(a) + Split(b)
  {
    if a == "" {
      assert ("" + "/" + b)[1..] == b;
    } else {
      var tail := a[1..] + "/" + b;
      assert a + "/" + b == [a[0]] + tail;
      SplitConcat(a[1..], b);
      SplitFirst(a[0], a[1..]);
      SplitFirst(a[0], tail);
      assert [a[0]] + a[1..] == a;
      PrependConcat(a[0], Split(a[1..]), Split(b));
    }
  }

  lemma PrependConcat(c: char, parts: seq<string>, more: seq<string>)
    requires parts != []
    ensures Prepend(c, parts + more) == Prepend(c, parts) + more
  {
  }

  /** The string test says exactly that the components of one path begin the components of the other. */
  lemma UnderIffPrefix(path: string, directory: string)
    ensures Under(path, directory) <==> Split(directory) <= Split(path)
  {
    if directory + "/" <= path {
      var rest := path[|directory| + 1..];
      assert path == directory + "/" + rest;
      SplitConcat(directory, rest);
    }
    if Split(directory) <= Split(path) {
      JoinSplit(path);
      JoinSplit(directory);
      var rest := Split(path)[|Split(directory)|..];
      assert Split(path) == Split(directory) + rest;
      if rest == [] {
        assert Split(path) == Split(directory);
      } else {
        JoinConcat(Split(directory), rest);
        assert directory + "/" <= path;
      }
    }
  }

  /** Hence it is an order, and what covers a path covers everything below it. */
  lemma UnderIsOrder(a: string, b: string, c: string)
    ensures Under(a, a)
    ensures Under(a, b) && Under(b, c) ==> Under(a, c)
    ensures Under(a, b) && Under(b, a) ==> a == b
    ensures Under(a, b) && Under(a, c) ==> Under(b, c) || Under(c, b)
  {
    UnderIffPrefix(a, b);
    UnderIffPrefix(b, c);
    UnderIffPrefix(a, c);
    UnderIffPrefix(c, b);
  }

  lemma ApprovedIsDownward(path: string, below: string, targets: seq<string>)
    requires Approved(path, targets) && Under(below, path)
    ensures Approved(below, targets)
  {
  }

  /** A path is approved exactly when some target's components begin its own. */
  lemma ApprovedIff(path: string, targets: seq<string>)
    ensures Approved(path, targets) <==> exists t :: t in targets && Split(t) <= Split(path)
  {
    forall t | t in targets ensures Under(path, t) <==> Split(t) <= Split(path) { UnderIffPrefix(path, t); }
  }

  /** Approving a path together with something below it is approving the path. */
  lemma ApprovedBelowAddsNothing(path: string, targets: seq<string>, below: string)
    requires Approved(below, targets)
    ensures Approved(path, targets + [below]) <==> Approved(path, targets)
  {
  }

  // ------------------------------------------------------------------- resolution

  /** Following a path from a directory, part by part, without ever going above where it started. */
  function Follow(at: seq<string>, parts: seq<string>, start: nat): (place: Option<seq<string>>)
    requires start <= |at|
    decreases |parts|
  {
    if parts == [] then Some(at)
    else if parts[0] == "" || parts[0] == "." then Follow(at, parts[1..], start)
    else if parts[0] == ".." then
      if |at| == start then None else Follow(at[..|at| - 1], parts[1..], start)
    else Follow(at + [parts[0]], parts[1..], start)
  }

  lemma {:induction false} FollowPlain(at: seq<string>, parts: seq<string>, start: nat)
    requires start <= |at| && forall i :: 0 <= i < |parts| ==> PlainPart(parts[i])
    ensures Follow(at, parts, start) == Some(at + parts)
    decreases |parts|
  {
    if parts != [] {
      FollowPlain(at + [parts[0]], parts[1..], start);
      assert at + [parts[0]] + parts[1..] == at + parts;
    } else {
      assert at + parts == at;
    }
  }

  /** An accepted path leads to its own components below the root, and different paths lead to different places. */
  lemma CanonicalStaysBelow(root: seq<string>, path: string, other: string)
    requires Canonical(path) && Canonical(other)
    ensures Follow(root, Split(path), |root|) == Some(root + Split(path))
    ensures Follow(root, Split(path), |root|) == Follow(root, Split(other), |root|) ==> path == other
  {
    FollowPlain(root, Split(path), |root|);
    FollowPlain(root, Split(other), |root|);
    JoinSplit(path);
    JoinSplit(other);
    assert (root + Split(path))[|root|..] == Split(path) && (root + Split(other))[|root|..] == Split(other);
  }

  // ------------------------------------------------- acceptance, component by component

  predicate UsablePart(part: string) {
    PlainPart(part) && Clean(part)
  }

  predicate StartsBlank(text: string) {
    text != "" && IsSpace(text[0])
  }

  predicate EndsBlank(text: string) {
    text != "" && IsSpace(text[|text| - 1])
  }

  /** The components of an accepted path, or the first of them. */
  ghost predicate UsableParts(parts: seq<string>)
    requires parts != []
  {
    (forall i :: 0 <= i < |parts| ==> UsablePart(parts[i])) && !StartsBlank(parts[0])
  }

  lemma {:induction false} CleanSplit(path: string)
    ensures Clean(path) <==> forall i :: 0 <= i < |Split(path)| ==> Clean(Split(path)[i])
  {
    if path == "" {
      assert Split(path)[0] == "";
    } else {
      var rest, parts := Split(path[1..]), Split(path);
      CleanSplit(path[1..]);
      assert path == [path[0]] + path[1..];
      SplitFirst(path[0], path[1..]);
      if path[0] == '/' {
        assert forall i :: 1 <= i < |parts| ==> parts[i] == rest[i - 1];
        assert forall i :: 0 <= i < |rest| ==> rest[i] == parts[i + 1];
      } else {
        assert parts[0] == [path[0]] + rest[0];
        assert forall i :: 1 <= i < |parts| ==> parts[i] == rest[i];
      }
    }
  }

  lemma {:induction false} SplitEnds(path: string)
    requires path != ""
    ensures Split(path)[0] != "" ==> Split(path)[0][0] == path[0]
    ensures var last := Split(path)[|Split(path)| - 1]; last != "" ==> last[|last| - 1] == path[|path| - 1]
  {
    if |path| > 1 {
      SplitEnds(path[1..]);
    } else {
      assert path[1..] == "" && Split("") == [""];
    }
  }

  lemma {:induction false} SplitName(name: string)
    requires '/' !in name
    ensures Split(name) == [name]
  {
    if name != "" {
      SplitName(name[1..]);
      assert name == [name[0]] + name[1..];
    }
  }

  /** The checks for a leading slash and an empty path are implied by the check of the components. */
  lemma PlainPartsSuffice(path: string)
    requires forall i :: 0 <= i < |Split(path)| ==> PlainPart(Split(path)[i])
    ensures path != "" && !("/" <= path)
  {
    if path == "" || path[0] == '/' { assert Split(path)[0] == ""; }
  }

  /** A path is accepted exactly for its components: each usable, no blank at the very start or end. */
  lemma CanonicalIff(path: string)
    ensures Canonical(path) <==> UsableParts(Split(path)) && !EndsBlank(Split(path)[|Split(path)| - 1])
  {
    StripKeeps(path);
    CleanSplit(path);
    if forall i :: 0 <= i < |Split(path)| ==> PlainPart(Split(path)[i]) {
      PlainPartsSuffice(path);
      SplitEnds(path);
    }
  }
}
