/**
 Packing project files into the text a model run is given: in priority order, each file is
 taken if its section still fits.
 */
module ProjectContext {
  import opened Wrappers
  import opened PythonText

  const TEXT_FILE_BYTES := 65536

  /** A workspace file as the loop meets it; `text` is absent for what cannot be read as UTF-8. */
  datatype File = File(path: string, size: nat, linked: bool, text: Option<string>, digest: string)

  predicate Eligible(file: File) {
    file.size <= TEXT_FILE_BYTES && !file.linked && file.text.Some? && '\0' !in file.text.value
  }

  function Section(file: File): (section: string)
    requires file.text.Some?
    ensures section != ""
  {
    "\n--- " + file.path + " sha256=" + file.digest + "\n" + file.text.value + "\n"
  }

  /** Characters in use before file `n`. */
  function Used(base: nat, files: seq<File>, max: nat, n: nat): nat
    requires n <= |files|
  {
    if n == 0 then base
    else
      var used := Used(base, files, max, n - 1);
      if Eligible(files[n - 1]) && used + |Section(files[n - 1])| <= max then used + |Section(files[n - 1])| else used
  }

  /** File `i` is taken exactly when it is eligible and fits behind what was taken before it. */
  predicate Taken(base: nat, files: seq<File>, max: nat, i: nat)
    requires i < |files|
  {
    Eligible(files[i]) && Used(base, files, max, i) + |Section(files[i])| <= max
  }

  /** The sections of the taken ones among the first `n` files. */
  function Packed(base: nat, files: seq<File>, max: nat, n: nat): string
    requires n <= |files|
  {
    if n == 0 then ""
    else
      var before := Packed(base, files, max, n - 1);
      if Taken(base, files, max, n - 1) then before + Section(files[n - 1]) else before
  }

  lemma {:induction false} PackedLength(base: nat, files: seq<File>, max: nat, n: nat)
    requires n <= |files|
    ensures base + |Packed(base, files, max, n)| == Used(base, files, max, n)
  {
    if n > 0 { PackedLength(base, files, max, n - 1); }
  }

  /** One file more: its section is appended exactly when it is taken. */
  lemma {:induction false} PackedNext(header: string, files: seq<File>, max: nat, n: nat)
    requires n < |files|
    ensures header + Packed(|header|, files, max, n + 1)
            == header + Packed(|header|, files, max, n)
               + if Taken(|header|, files, max, n) then Section(files[n]) else ""
  {
  }

  /** What a model reads of a file. */
  function Shown(file: File): string {
    "\n--- " + file.path + " sha256=" + file.digest + "\n" + (if file.text.Some? then file.text.value else "") + "\n"
  }

  /** A plain UTF-8 text file of at most 64 KiB without a null character. */
  predicate Readable(file: File) {
    file.size <= 65_536 && !file.linked && file.text.Some? && forall i :: 0 <= i < |file.text.value| ==> file.text.value[i] != '\0'
  }

  /** File after file: a readable one is appended as a whole exactly when it fits the rest of the budget. */
  lemma {:induction false} PackingIs(header: string, files: seq<File>, max: nat, n: nat)
    requires n < |files|
    ensures var before := header + Packed(|header|, files, max, n);
            header + Packed(|header|, files, max, n + 1)
            == before + if Readable(files[n]) && |before| + |Shown(files[n])| <= max then Shown(files[n]) else ""
    ensures Packed(|header|, files, max, 0) == ""
    ensures Taken(|header|, files, max, n)
            <==> Readable(files[n]) && |header + Packed(|header|, files, max, n)| + |Shown(files[n])| <= max
  {
    PackedNext(header, files, max, n);
    PackedLength(|header|, files, max, n);
    assert Eligible(files[n]) <==> Readable(files[n]);
  }

  lemma {:induction false} UsedGrows(base: nat, files: seq<File>, max: nat, i: nat, n: nat)
    requires i <= n <= |files|
    ensures Used(base, files, max, i) <= Used(base, files, max, n)
  {
    if i < n { UsedGrows(base, files, max, i, n - 1); }
  }

  /** Once the budget is used up nothing more is taken, so the loop may as well stop. */
  lemma {:induction false} FullStays(base: nat, files: seq<File>, max: nat, i: nat, n: nat)
    requires i <= n <= |files| && Used(base, files, max, i) >= max
    ensures Used(base, files, max, n) == Used(base, files, max, i)
    ensures Packed(base, files, max, n) == Packed(base, files, max, i)
    ensures forall k :: i <= k < n ==> !Taken(base, files, max, k)
  {
    if i < n { FullStays(base, files, max, i, n - 1); }
  }

  /** The text never exceeds the budget, unless what comes before the files already does. */
  lemma {:induction false} WithinBudget(base: nat, files: seq<File>, max: nat, n: nat)
    requires n <= |files|
    ensures Used(base, files, max, n) <= if base > max then base else max
  {
    if n > 0 { WithinBudget(base, files, max, n - 1); }
  }

  /** No eligible file that was left out would fit into the space left at the end. */
  lemma NothingElseFits(base: nat, files: seq<File>, max: nat, i: nat)
    requires i < |files| && Eligible(files[i]) && !Taken(base, files, max, i)
    ensures Used(base, files, max, |files|) + |Section(files[i])| > max
  {
    UsedGrows(base, files, max, i, |files|);
  }

  ghost predicate DistinctPaths(files: seq<File>) {
    forall i, j :: 0 <= i < j < |files| ==> files[i].path != files[j].path
  }

  /** The hash map lists exactly the taken ones among the first `n` files, each with its digest. */
  ghost predicate Lists(hashes: map<string, string>, base: nat, files: seq<File>, max: nat, n: nat)
    requires n <= |files|
  {
    && (forall i :: 0 <= i < n ==> (files[i].path in hashes <==> Taken(base, files, max, i)))
    && (forall p :: p in hashes ==> exists i :: 0 <= i < n && files[i].path == p && hashes[p] == files[i].digest)
  }

  lemma {:induction false} ListsNext(hashes: map<string, string>, base: nat, files: seq<File>, max: nat, n: nat)
    requires n < |files| && DistinctPaths(files) && Lists(hashes, base, files, max, n)
    ensures var file := files[n];
            Lists(if Taken(base, files, max, n) then hashes[file.path := file.digest] else hashes, base, files, max, n + 1)
  {
    var file := files[n];
    var after := if Taken(base, files, max, n) then hashes[file.path := file.digest] else hashes;
    forall i | 0 <= i < n + 1 ensures files[i].path in after <==> Taken(base, files, max, i) {
      if i < n {
        assert files[i].path != file.path;
        assert files[i].path in hashes <==> Taken(base, files, max, i);
      }
    }
    forall p | p in after ensures exists i :: 0 <= i < n + 1 && files[i].path == p && after[p] == files[i].digest {
      if p == file.path {
        assert after[p] == files[n].digest;
      } else {
        var i :| 0 <= i < n && files[i].path == p && hashes[p] == files[i].digest;
      }
    }
  }

  lemma {:induction false} ListsAll(hashes: map<string, string>, base: nat, files: seq<File>, max: nat, n: nat)
    requires n <= |files| && DistinctPaths(files) && Lists(hashes, base, files, max, n)
    requires forall k :: n <= k < |files| ==> !Taken(base, files, max, k)
    ensures Lists(hashes, base, files, max, |files|)
  {
    forall k | n <= k < |files| ensures files[k].path !in hashes {}
  }

  /** `build_project_context`: the base text, then the packing loop. */
  method Build(header: string, files: seq<File>, max: nat) returns (text: string, hashes: map<string, string>)
    requires DistinctPaths(files)
    ensures text == Strip(header + Packed(|header|, files, max, |files|))
    ensures Lists(hashes, |header|, files, max, |files|)
  {
    text, hashes := header, map[];
    var used := |header|;
    var n := 0;
    while n < |files|
      invariant 0 <= n <= |files|
      invariant used == Used(|header|, files, max, n) && text == header + Packed(|header|, files, max, n)
      invariant Lists(hashes, |header|, files, max, n)
    {
      if used >= max {
        FullStays(|header|, files, max, n, |files|);
        ListsAll(hashes, |header|, files, max, n);
        break;
      }
      ListsNext(hashes, |header|, files, max, n);
      PackedNext(header, files, max, n);
      var file := files[n];
      n := n + 1;
      if !Eligible(file) {
        continue;
      }
      var section := Section(file);
      if |section| > max - used {
        continue;
      }
      text := text + section;
      hashes := hashes[file.path := file.digest];
      used := used + |section|;
    }
    text := Strip(text);
  }

  /** The finished text respects the budget whenever the base text does. */
  lemma TextWithinBudget(header: string, files: seq<File>, max: nat)
    ensures |Strip(header + Packed(|header|, files, max, |files|))| <= if |header| > max then |header| else max
  {
    PackedLength(|header|, files, max, |files|);
    WithinBudget(|header|, files, max, |files|);
    StripTrims(header + Packed(|header|, files, max, |files|));
  }
}
