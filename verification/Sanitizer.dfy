/**
 The recursive sanitizer on top of text redaction: every string value is redacted,
 every value under a sensitive key is replaced whole, and whatever is not plain
 data becomes nothing.
 */
module Sanitizer {
  import opened Redaction

  /** A Python value; the keys of a mapping are given as `str` renders them. */
  datatype Raw =
    | Text(text: string)
    | Flag(flag: bool)
    | Whole(n: int)
    | Float(finite: bool, value: real)
    | Nothing
    | Mapping(entries: seq<Entry>)
    | List(items: seq<Raw>)
    | Tuple(parts: seq<Raw>)
    | Object

  datatype Entry = Entry(key: string, value: Raw)

  datatype Clean =
    | CleanText(text: string)
    | CleanFlag(flag: bool)
    | CleanWhole(n: int)
    | CleanFloat(value: real)
    | CleanNothing
    | CleanMapping(entries: map<string, Clean>)
    | CleanList(items: seq<Clean>)
    | CleanTuple(parts: seq<Clean>)

  const SENSITIVE_KEYS := {"api_key", "authorization", "credential", "password", "secret", "session_token", "token"}

  /** `str.lower` as far as it can produce an ASCII letter: capitals and the Kelvin sign. */
  function LowerChar(c: char): char {
    if 'A' <= c <= 'Z' then c - 'A' + 'a' else if c == '\U{212A}' then 'k' else c
  }

  function Lower(key: string): string {
    seq(|key|, i requires 0 <= i < |key| => LowerChar(key[i]))
  }

  predicate Sensitive(key: string) {
    Lower(key) in SENSITIVE_KEYS
  }

  function Sanitize(value: Raw, secrets: seq<Secret>): Clean
    decreases value, 0
  {
    match value
    case Text(text) => CleanText(RedactWith(text, secrets))
    case Flag(flag) => CleanFlag(flag)
    case Whole(n) => CleanWhole(n)
    case Float(finite, x) => if finite then CleanFloat(x) else CleanNothing
    case Nothing => CleanNothing
    case Mapping(entries) => CleanMapping(SanitizeEntries(entries, secrets))
    case List(items) => CleanList(SanitizeAll(items, secrets))
    case Tuple(parts) => CleanTuple(SanitizeAll(parts, secrets))
    case Object => CleanNothing
  }

  function SanitizeValue(key: string, value: Raw, secrets: seq<Secret>): Clean
    decreases value, 1
  {
    if Sensitive(key) then CleanText(MASK) else Sanitize(value, secrets)
  }

  /** The dictionary comprehension of `sanitize_mapping`: a repeated key keeps its last value. */
  function SanitizeEntries(entries: seq<Entry>, secrets: seq<Secret>): map<string, Clean>
    decreases entries, 0
  {
    if entries == [] then map[]
    else
      var front, last := entries[..|entries| - 1], entries[|entries| - 1];
      SanitizeEntries(front, secrets)[last.key := SanitizeValue(last.key, last.value, secrets)]
  }

  function SanitizeAll(items: seq<Raw>, secrets: seq<Secret>): seq<Clean>
    decreases items, 0
  {
    if items == [] then []
    else SanitizeAll(items[..|items| - 1], secrets) + [Sanitize(items[|items| - 1], secrets)]
  }

  // -------------------------------------------------------- which keys are sensitive

  /** The same character up to case; the Kelvin sign counts as a capital K. */
  predicate SameLetter(c: char, letter: char) {
    c == letter || ('a' <= letter <= 'z' && c as int + 32 == letter as int) || (letter == 'k' && c == '\U{212A}')
  }

  predicate Spells(key: string, name: string) {
    |key| == |name| && forall i :: 0 <= i < |name| ==> SameLetter(key[i], name[i])
  }

  /** Keys under which credentials are kept. */
  predicate Credential(key: string) {
    || Spells(key, "api_key") || Spells(key, "authorization") || Spells(key, "credential") || Spells(key, "password")
    || Spells(key, "secret") || Spells(key, "session_token") || Spells(key, "token")
  }

  predicate LowerLetter(c: char) {
    'a' <= c <= 'z' || c == '_'
  }

  lemma LowerCharIff(c: char, letter: char)
    requires LowerLetter(letter)
    ensures LowerChar(c) == letter <==> SameLetter(c, letter)
  {
  }

  lemma {:induction false} LowerIff(key: string, name: string)
    requires forall i :: 0 <= i < |name| ==> LowerLetter(name[i])
    ensures Lower(key) == name <==> Spells(key, name)
  {
    if |key| == |name| {
      forall i | 0 <= i < |name| ensures Lower(key)[i] == name[i] <==> SameLetter(key[i], name[i]) {
        LowerCharIff(key[i], name[i]);
      }
    }
  }

  /** A key is masked exactly when it spells one of the seven names, in capitals or not. */
  lemma {:induction false} SensitiveIff(key: string)
    ensures Sensitive(key) <==> Credential(key)
  {
    LowerIff(key, "api_key");
    LowerIff(key, "authorization");
    LowerIff(key, "credential");
    LowerIff(key, "password");
    LowerIff(key, "secret");
    LowerIff(key, "session_token");
    LowerIff(key, "token");
  }

  // ------------------------------------------------------- what becomes of every value

  /**
   `clean` is `value` with every text redacted, every value under a credential's key masked and
   whatever is not plain data left empty; keys, lengths and all other values are the same.
   */
  ghost predicate Mirrors(value: Raw, clean: Clean, secrets: seq<Secret>)
    decreases value
  {
    match value
    case Text(text) => clean == CleanText(RedactWith(text, secrets))
    case Flag(flag) => clean == CleanFlag(flag)
    case Whole(n) => clean == CleanWhole(n)
    case Float(finite, x) => clean == if finite then CleanFloat(x) else CleanNothing
    case Nothing => clean == CleanNothing
    case Object => clean == CleanNothing
    case List(items) =>
      && clean.CleanList? && |clean.items| == |items|
      && forall i :: 0 <= i < |items| ==> Mirrors(items[i], clean.items[i], secrets)
    case Tuple(parts) =>
      && clean.CleanTuple? && |clean.parts| == |parts|
      && forall i :: 0 <= i < |parts| ==> Mirrors(parts[i], clean.parts[i], secrets)
    case Mapping(entries) =>
      && clean.CleanMapping?
      && (forall key :: key in clean.entries <==> exists i :: 0 <= i < |entries| && entries[i].key == key)
      && forall i :: 0 <= i < |entries| && LastOfKey(entries, i) ==>
           entries[i].key in clean.entries
           && if Credential(entries[i].key) then clean.entries[entries[i].key] == CleanText("***")
              else Mirrors(entries[i].value, clean.entries[entries[i].key], secrets)
  }

  predicate LastOfKey(entries: seq<Entry>, i: nat)
    requires i < |entries|
  {
    forall j :: i < j < |entries| ==> entries[j].key != entries[i].key
  }

  lemma {:induction false} SanitizeMirrors(value: Raw, secrets: seq<Secret>)
    ensures Mirrors(value, Sanitize(value, secrets), secrets)
    decreases value
  {
    match value
    case List(items) => AllMirror(items, secrets);
    case Tuple(parts) => AllMirror(parts, secrets);
    case Mapping(entries) => EntriesMirror(entries, secrets);
    case _ =>
  }

  lemma {:induction false} AllMirror(items: seq<Raw>, secrets: seq<Secret>)
    ensures |SanitizeAll(items, secrets)| == |items|
    ensures forall i :: 0 <= i < |items| ==> Mirrors(items[i], SanitizeAll(items, secrets)[i], secrets)
    decreases items
  {
    if items != [] {
      var front, last := items[..|items| - 1], items[|items| - 1];
      AllMirror(front, secrets);
      SanitizeMirrors(last, secrets);
      forall i | 0 <= i < |items| ensures Mirrors(items[i], SanitizeAll(items, secrets)[i], secrets) {
        if i < |front| { assert front[i] == items[i]; }
      }
    }
  }

  /** What one entry is given, when it is the last of its key. */
  ghost predicate EntryMirrors(entry: Entry, clean: map<string, Clean>, secrets: seq<Secret>) {
    && entry.key in clean
    && if Credential(entry.key) then clean[entry.key] == CleanText("***")
       else Mirrors(entry.value, clean[entry.key], secrets)
  }

  lemma {:induction false} LastStays(entries: seq<Entry>, i: nat)
    requires i < |entries| - 1 && LastOfKey(entries, i)
    ensures LastOfKey(entries[..|entries| - 1], i) && entries[i].key != entries[|entries| - 1].key
  {
    var front := entries[..|entries| - 1];
    forall j | i < j < |front| ensures front[j].key != front[i].key { assert entries[j].key != entries[i].key; }
  }

  lemma {:induction false} SanitizeKeys(entries: seq<Entry>, secrets: seq<Secret>, key: string)
    ensures key in SanitizeEntries(entries, secrets) <==> exists i :: 0 <= i < |entries| && entries[i].key == key
  {
    if entries != [] {
      var n := |entries| - 1;
      SanitizeKeys(entries[..n], secrets, key);
      if i :| 0 <= i < |entries| && entries[i].key == key { assert i < n ==> entries[..n][i].key == key; }
      if i :| 0 <= i < n && entries[..n][i].key == key { assert entries[i].key == key; }
      if key == entries[n].key { assert entries[n].key == key; }
    }
  }

  lemma {:induction false} LastMirrors(entry: Entry, before: map<string, Clean>, secrets: seq<Secret>)
    requires Mirrors(entry.value, Sanitize(entry.value, secrets), secrets)
    ensures EntryMirrors(entry, before[entry.key := SanitizeValue(entry.key, entry.value, secrets)], secrets)
  {
    SensitiveIff(entry.key);
  }

  lemma {:induction false} OtherMirrors(entry: Entry, before: map<string, Clean>, key: string, value: Clean, secrets: seq<Secret>)
    requires EntryMirrors(entry, before, secrets) && key != entry.key
    ensures EntryMirrors(entry, before[key := value], secrets)
  {
  }

  lemma {:induction false} EachMirrors(entries: seq<Entry>, secrets: seq<Secret>)
    ensures forall i :: 0 <= i < |entries| && LastOfKey(entries, i) ==>
              EntryMirrors(entries[i], SanitizeEntries(entries, secrets), secrets)
    decreases entries, 0
  {
    if entries != [] {
      var n := |entries| - 1;
      var front, last := entries[..n], entries[n];
      var before := SanitizeEntries(front, secrets);
      EachMirrors(front, secrets);
      SanitizeMirrors(last.value, secrets);
      LastMirrors(last, before, secrets);
      forall i | 0 <= i < |entries| && LastOfKey(entries, i)
        ensures EntryMirrors(entries[i], SanitizeEntries(entries, secrets), secrets)
      {
        if i < n {
          LastStays(entries, i);
          assert front[i] == entries[i];
          OtherMirrors(entries[i], before, last.key, SanitizeValue(last.key, last.value, secrets), secrets);
        }
      }
    }
  }

  lemma {:induction false} EntriesMirror(entries: seq<Entry>, secrets: seq<Secret>)
    ensures var clean := SanitizeEntries(entries, secrets);
            && (forall key :: key in clean <==> exists i :: 0 <= i < |entries| && entries[i].key == key)
            && forall i :: 0 <= i < |entries| && LastOfKey(entries, i) ==> EntryMirrors(entries[i], clean, secrets)
    decreases entries, 1
  {
    EachMirrors(entries, secrets);
    forall key ensures key in SanitizeEntries(entries, secrets) <==> exists i :: 0 <= i < |entries| && entries[i].key == key {
      SanitizeKeys(entries, secrets, key);
    }
  }

  /** The sanitizer does this and nothing else. */
  lemma {:induction false} MirrorUnique(value: Raw, clean: Clean, secrets: seq<Secret>)
    requires Mirrors(value, clean, secrets)
    ensures clean == Sanitize(value, secrets)
    decreases value
  {
    var sanitized := Sanitize(value, secrets);
    SanitizeMirrors(value, secrets);
    match value
    case List(items) =>
      forall i | 0 <= i < |items| ensures clean.items[i] == sanitized.items[i] {
        MirrorUnique(items[i], clean.items[i], secrets);
        MirrorUnique(items[i], sanitized.items[i], secrets);
      }
    case Tuple(parts) =>
      forall i | 0 <= i < |parts| ensures clean.parts[i] == sanitized.parts[i] {
        MirrorUnique(parts[i], clean.parts[i], secrets);
        MirrorUnique(parts[i], sanitized.parts[i], secrets);
      }
    case Mapping(entries) =>
      forall key | key in clean.entries ensures clean.entries[key] == sanitized.entries[key] {
        var some :| 0 <= some < |entries| && entries[some].key == key;
        var i := LastIndex(entries, key, some);
        if !Credential(key) {
          MirrorUnique(entries[i].value, clean.entries[key], secrets);
          MirrorUnique(entries[i].value, sanitized.entries[key], secrets);
        }
      }
      assert clean.entries.Keys == sanitized.entries.Keys;
      assert clean.entries == sanitized.entries;
    case _ =>
  }

  lemma {:induction false} LastIndex(entries: seq<Entry>, key: string, some: nat) returns (i: nat)
    requires some < |entries| && entries[some].key == key
    ensures i < |entries| && entries[i].key == key && LastOfKey(entries, i)
    decreases |entries| - some
  {
    if j :| some < j < |entries| && entries[j].key == key { i := LastIndex(entries, key, j); } else { i := some; }
  }

  /** For every value there is one result, and it is the sanitizer's. */
  lemma {:induction false} SanitizeIff(value: Raw, clean: Clean, secrets: seq<Secret>)
    ensures clean == Sanitize(value, secrets) <==> Mirrors(value, clean, secrets)
  {
    SanitizeMirrors(value, secrets);
    if Mirrors(value, clean, secrets) { MirrorUnique(value, clean, secrets); }
  }

  // ------------------------------------------------------------------ what stays hidden

  /** No string value, at any depth, contains the secret, and credentials' keys hold only the mask. */
  ghost predicate Hides(value: Clean, secret: string)
    decreases value
  {
    match value
    case CleanText(text) => !Contains(text, secret)
    case CleanMapping(entries) =>
      forall key :: key in entries ==>
        (Credential(key) ==> entries[key] == CleanText("***")) && Hides(entries[key], secret)
    case CleanList(items) => forall i :: 0 <= i < |items| ==> Hides(items[i], secret)
    case CleanTuple(parts) => forall i :: 0 <= i < |parts| ==> Hides(parts[i], secret)
    case _ => true
  }

  lemma {:induction false} SanitizeHides(value: Raw, secrets: seq<Secret>, secret: Secret)
    requires secret in secrets && MaskSafe(secret)
    ensures Hides(Sanitize(value, secrets), secret)
    decreases value
  {
    match value
    case Text(text) => RedactRemoves(text, secrets, secret);
    case Mapping(entries) => EntriesHide(entries, secrets, secret);
    case List(items) => AllHide(items, secrets, secret);
    case Tuple(parts) => AllHide(parts, secrets, secret);
    case _ =>
  }

  /** `sanitize_mapping`: the guarantee for a whole mapping. */
  lemma {:induction false} EntriesHide(entries: seq<Entry>, secrets: seq<Secret>, secret: Secret)
    requires secret in secrets && MaskSafe(secret)
    ensures Hides(CleanMapping(SanitizeEntries(entries, secrets)), secret)
    decreases entries
  {
    if entries != [] {
      var front, last := entries[..|entries| - 1], entries[|entries| - 1];
      EntriesHide(front, secrets, secret);
      NotInMask(secret);
      SensitiveIff(last.key);
      if !Sensitive(last.key) {
        SanitizeHides(last.value, secrets, secret);
      }
      var before := SanitizeEntries(front, secrets);
      var after := SanitizeEntries(entries, secrets);
      forall key | key in after
        ensures (Credential(key) ==> after[key] == CleanText("***")) && Hides(after[key], secret)
      {
        if key == last.key {
          assert after[key] == SanitizeValue(key, last.value, secrets);
        } else {
          assert after[key] == before[key];
        }
      }
    }
  }

  lemma {:induction false} AllHide(items: seq<Raw>, secrets: seq<Secret>, secret: Secret)
    requires secret in secrets && MaskSafe(secret)
    ensures forall i :: 0 <= i < |SanitizeAll(items, secrets)| ==> Hides(SanitizeAll(items, secrets)[i], secret)
    decreases items
  {
    if items != [] {
      AllHide(items[..|items| - 1], secrets, secret);
      SanitizeHides(items[|items| - 1], secrets, secret);
    }
  }
}
