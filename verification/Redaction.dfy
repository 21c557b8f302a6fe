/**
 Removing registered secrets from text, and from structured values.

 Secrets are replaced one after another by three asterisks, the longest first.
 */
module Redaction {
  import PythonText

  type Secret = s: string | s != "" witness "secret"

  const MASK := "***"

  /** `str.replace(secret, "***")`: leftmost, non-overlapping. */
  function Replace(text: string, secret: Secret): string
    decreases |text|
  {
    if |text| < |secret| then text
    else if secret <= text then MASK + Replace(text[|secret|..], secret)
    else [text[0]] + Replace(text[1..], secret)
  }

  function RedactWith(text: string, secrets: seq<Secret>): string {
    if secrets == [] then text
    else Replace(RedactWith(text, secrets[..|secrets| - 1]), secrets[|secrets| - 1])
  }

  predicate Contains(text: string, part: string) {
    part <= text || (text != "" && Contains(text[1..], part))
  }

  ghost predicate TripleAt(part: string, i: nat) {
    i + 2 < |part| && part[i] == '*' && part[i + 1] == '*' && part[i + 2] == '*'
  }

  /** No run of three asterisks, and none at the end. */
  ghost predicate Unmasked(part: string) {
    && (part != "" ==> part[|part| - 1] != '*')
    && forall i: nat :: !TripleAt(part, i)
  }

  /** Nothing the mask could complete: no leading, trailing or tripled asterisk. */
  ghost predicate MaskSafe(secret: string) {
    secret != "" && secret[0] != '*' && Unmasked(secret)
  }

  lemma {:induction false} ContainsTail(text: string, k: nat, part: string)
    requires k <= |text| && Contains(text[k..], part)
    ensures Contains(text, part)
  {
    if k > 0 {
      assert text[1..][k - 1..] == text[k..];
      ContainsTail(text[1..], k - 1, part);
    } else {
      assert text[0..] == text;
    }
  }

  lemma {:induction false} ContainsShorter(text: string, part: string)
    requires Contains(text, part)
    ensures |part| <= |text|
  {
    if !(part <= text) { ContainsShorter(text[1..], part); }
  }

  /** An occurrence that does not start with an asterisk lies behind the mask. */
  lemma MaskSkipped(rest: string, part: string)
    requires part != "" && part[0] != '*' && Contains(MASK + rest, part)
    ensures Contains(rest, part)
  {
    AsteriskSkipped("**" + rest, part, MASK + rest);
    AsteriskSkipped("*" + rest, part, "**" + rest);
    AsteriskSkipped(rest, part, "*" + rest);
  }

  lemma AsteriskSkipped(rest: string, part: string, whole: string)
    requires part != "" && part[0] != '*' && whole == "*" + rest && Contains(whole, part)
    ensures Contains(rest, part)
  {
  }

  /** A prefix the mask cannot have completed was a prefix before the replacement. */
  lemma {:induction false} PrefixWasThere(text: string, secret: Secret, part: string)
    requires Unmasked(part)
    requires part <= Replace(text, secret)
    ensures part <= text
    decreases |text|
  {
    if part == "" || |text| < |secret| {
    } else if secret <= text {
      assert part[0] == '*';
      assert |part| > 1 ==> part[1] == '*';
      assert |part| > 2 ==> part[2] == '*';
      assert TripleAt(part, 0);
    } else {
      var tail := part[1..];
      forall i: nat ensures !TripleAt(tail, i) {
        assert !TripleAt(part, i + 1);
      }
      assert ([text[0]] + Replace(text[1..], secret))[1..] == Replace(text[1..], secret);
      PrefixWasThere(text[1..], secret, tail);
      assert part == [part[0]] + tail && text == [text[0]] + text[1..];
    }
  }

  /** Replacing one secret never makes another, mask-safe one appear. */
  lemma {:induction false} NothingAppears(text: string, secret: Secret, part: string)
    requires MaskSafe(part)
    requires Contains(Replace(text, secret), part)
    ensures Contains(text, part)
    decreases |text|
  {
    if |text| < |secret| {
    } else if secret <= text {
      MaskSkipped(Replace(text[|secret|..], secret), part);
      NothingAppears(text[|secret|..], secret, part);
      ContainsTail(text, |secret|, part);
    } else if part <= Replace(text, secret) {
      PrefixWasThere(text, secret, part);
    } else {
      assert ([text[0]] + Replace(text[1..], secret))[1..] == Replace(text[1..], secret);
      NothingAppears(text[1..], secret, part);
    }
  }

  /** Replacing a mask-safe secret removes it. */
  lemma {:induction false} ReplaceRemoves(text: string, secret: Secret)
    requires MaskSafe(secret)
    ensures !Contains(Replace(text, secret), secret)
    decreases |text|
  {
    if |text| < |secret| {
      if Contains(text, secret) { ContainsShorter(text, secret); }
    } else if secret <= text {
      ReplaceRemoves(text[|secret|..], secret);
      if Contains(Replace(text, secret), secret) {
        MaskSkipped(Replace(text[|secret|..], secret), secret);
      }
    } else {
      ReplaceRemoves(text[1..], secret);
      assert ([text[0]] + Replace(text[1..], secret))[1..] == Replace(text[1..], secret);
      if secret <= Replace(text, secret) {
        PrefixWasThere(text, secret, secret);
      }
    }
  }

  lemma {:induction false} ReplaceNothing(text: string, secret: Secret)
    requires !Contains(text, secret)
    ensures Replace(text, secret) == text
    decreases |text|
  {
    if |text| >= |secret| {
      ReplaceNothing(text[1..], secret);
      assert text == [text[0]] + text[1..];
    }
  }

  /** Whatever else is registered and in whatever order, a mask-safe secret does not survive. */
  lemma {:induction false} RedactRemoves(text: string, secrets: seq<Secret>, secret: Secret)
    requires secret in secrets && MaskSafe(secret)
    ensures !Contains(RedactWith(text, secrets), secret)
  {
    var front, last := secrets[..|secrets| - 1], secrets[|secrets| - 1];
    if last == secret {
      ReplaceRemoves(RedactWith(text, front), secret);
    } else {
      assert secrets == front + [last];
      RedactRemoves(text, front, secret);
      if Contains(RedactWith(text, secrets), secret) {
        NothingAppears(RedactWith(text, front), last, secret);
      }
    }
  }

  lemma {:induction false} RedactNothing(text: string, secrets: seq<Secret>)
    requires forall s :: s in secrets ==> !Contains(text, s)
    ensures RedactWith(text, secrets) == text
  {
    if secrets != [] {
      RedactNothing(text, secrets[..|secrets| - 1]);
      ReplaceNothing(text, secrets[|secrets| - 1]);
    }
  }

  lemma {:induction false} ReplaceLength(text: string, secret: Secret)
    ensures |secret| >= 3 ==> |Replace(text, secret)| <= |text|
    ensures |secret| <= 3 ==> |Replace(text, secret)| >= |text|
    decreases |text|
  {
    if |text| >= |secret| { ReplaceLength(if secret <= text then text[|secret|..] else text[1..], secret); }
  }

  lemma {:induction false} ReplaceMask(text: string)
    ensures Replace(text, MASK) == text
    decreases |text|
  {
    if |text| >= 3 {
      if MASK <= text {
        ReplaceMask(text[3..]);
        assert text == MASK + text[3..];
      } else {
        ReplaceMask(text[1..]);
        assert text == [text[0]] + text[1..];
      }
    }
  }

  lemma {:induction false} RedactHarmless(text: string, secrets: seq<Secret>)
    requires forall s :: s in secrets ==> s == MASK || !Contains(text, s)
    ensures RedactWith(text, secrets) == text
  {
    if secrets != [] {
      var last := secrets[|secrets| - 1];
      RedactHarmless(text, secrets[..|secrets| - 1]);
      if last == MASK { ReplaceMask(text); } else { ReplaceNothing(text, last); }
    }
  }

  lemma {:induction false} RedactConcat(text: string, first: seq<Secret>, second: seq<Secret>)
    ensures RedactWith(text, first + second) == RedactWith(RedactWith(text, first), second)
  {
    if second == [] {
      assert first + second == first;
    } else {
      assert (first + second)[..|first + second| - 1] == first + second[..|second| - 1];
      RedactConcat(text, first, second[..|second| - 1]);
    }
  }

  lemma {:induction false} ContainsExtended(text: string, more: string, part: string)
    requires Contains(text, part)
    ensures Contains(text + more, part)
  {
    if !(part <= text) {
      ContainsExtended(text[1..], more, part);
      assert (text + more)[1..] == text[1..] + more;
    }
  }

  lemma {:induction false} ContainsTransitive(text: string, part: string, inner: string)
    requires Contains(text, part) && Contains(part, inner)
    ensures Contains(text, inner)
  {
    if part <= text {
      ContainsExtended(part, text[|part|..], inner);
      assert text == part + text[|part|..];
    } else {
      ContainsTransitive(text[1..], part, inner);
    }
  }

  /** A mask-safe secret is registered that every text holding this one holds too. */
  ghost predicate Shielded(secret: Secret, secrets: seq<Secret>) {
    exists inner: Secret :: inner in secrets && MaskSafe(inner) && Contains(secret, inner)
  }

  /** Redacting a redacted text changes nothing if every secret is the mask or holds a mask-safe one. */
  lemma {:induction false} RedactIdempotent(text: string, secrets: seq<Secret>)
    requires forall s :: s in secrets ==> s == MASK || Shielded(s, secrets)
    ensures RedactWith(RedactWith(text, secrets), secrets) == RedactWith(text, secrets)
  {
    var redacted := RedactWith(text, secrets);
    forall s | s in secrets ensures s == MASK || !Contains(redacted, s) {
      if s != MASK && Contains(redacted, s) {
        var inner: Secret :| inner in secrets && MaskSafe(inner) && Contains(s, inner);
        ContainsTransitive(redacted, s, inner);
        RedactRemoves(text, secrets, inner);
      }
    }
    RedactHarmless(redacted, secrets);
  }

  /** The order of the program: longer secrets first, no secret twice. */
  ghost predicate LongestFirst(secrets: seq<Secret>) {
    forall i, j :: 0 <= i < j < |secrets| ==> |secrets[i]| >= |secrets[j]| && secrets[i] != secrets[j]
  }

  lemma {:induction false} ContainsSameLength(text: string, part: string)
    requires Contains(text, part) && |part| == |text|
    ensures part == text
  {
    if !(part <= text) { ContainsShorter(text[1..], part); }
  }

  lemma NotInShorterSecret(secrets: seq<Secret>, i: nat, k: nat)
    requires LongestFirst(secrets) && i < k < |secrets|
    ensures !Contains(secrets[k], secrets[i])
  {
    if Contains(secrets[k], secrets[i]) {
      ContainsShorter(secrets[k], secrets[i]);
      ContainsSameLength(secrets[k], secrets[i]);
    }
  }

  lemma ReplaceItself(secret: Secret)
    ensures Replace(secret, secret) == MASK
    ensures RedactWith(secret, [secret]) == MASK
  {
  }

  /** What is replaced before a secret does not occur inside it. */
  lemma EarlierOutside(secrets: seq<Secret>, k: nat)
    requires LongestFirst(secrets) && k < |secrets|
    ensures forall x :: x in secrets[..k] ==> !Contains(secrets[k], x)
  {
    forall x | x in secrets[..k] ensures !Contains(secrets[k], x) {
      var i :| 0 <= i < k && secrets[i] == x;
      NotInShorterSecret(secrets, i, k);
    }
  }

  lemma Around<T>(s: seq<T>, k: nat)
    requires k < |s|
    ensures s == s[..k] + ([s[k]] + s[k + 1..])
  {
  }

  /** Replacing the secret itself, after everything that does not occur in it. */
  lemma {:induction false} RedactedUpTo(secrets: seq<Secret>, k: nat)
    requires LongestFirst(secrets) && k < |secrets|
    ensures RedactWith(secrets[k], secrets) == RedactWith(MASK, secrets[k + 1..])
  {
    var secret, before, after := secrets[k], secrets[..k], secrets[k + 1..];
    EarlierOutside(secrets, k);
    RedactNothing(secret, before);
    ReplaceItself(secret);
    Around(secrets, k);
    RedactConcat(secret, before, [secret] + after);
    RedactConcat(secret, [secret], after);
  }

  predicate ShorterThanMask(secret: Secret) {
    secret == "*" || secret == "**"
  }

  lemma {:induction false} AsterisksHold(text: string, part: string)
    requires Contains(text, part) && forall i :: 0 <= i < |text| ==> text[i] == '*'
    ensures |part| <= |text| && forall i :: 0 <= i < |part| ==> part[i] == '*'
  {
    if !(part <= text) { AsterisksHold(text[1..], part); }
  }

  lemma InMask(secret: Secret)
    requires Contains(MASK, secret)
    ensures ShorterThanMask(secret) || secret == MASK
  {
    AsterisksHold(MASK, secret);
  }

  lemma NotInMask(secret: Secret)
    requires MaskSafe(secret)
    ensures !Contains(MASK, secret)
  {
    if Contains(MASK, secret) { InMask(secret); }
  }

  lemma {:induction false} MaskStays(secrets: seq<Secret>)
    requires forall s :: s in secrets ==> !ShorterThanMask(s)
    ensures RedactWith(MASK, secrets) == MASK
  {
    forall s | s in secrets ensures s == MASK || !Contains(MASK, s) {
      if Contains(MASK, s) { InMask(s); }
    }
    RedactHarmless(MASK, secrets);
  }

  lemma MaskMasked()
    ensures |Replace(MASK, "*")| == 9 && |Replace(MASK, "**")| == 4
  {
    assert MASK[1..] == "**" && "**"[1..] == "*" && "*"[1..] == "" && MASK[2..] == "*";
    assert Replace("", "*") == "";
    assert Replace("*", "*") == MASK + Replace("", "*");
    assert Replace("**", "*") == MASK + Replace("*", "*");
    assert Replace(MASK, "*") == MASK + Replace("**", "*");
    assert Replace("*", "**") == "*";
    assert Replace(MASK, "**") == MASK + Replace("*", "**");
  }

  lemma {:induction false} MaskGrows(secrets: seq<Secret>, j: nat)
    requires LongestFirst(secrets) && j < |secrets| && ShorterThanMask(secrets[j])
    ensures |RedactWith(MASK, secrets)| > |MASK|
  {
    var n := |secrets| - 1;
    var front, last := secrets[..n], secrets[n];
    if i: nat :| i < n && ShorterThanMask(secrets[i]) {
      MaskGrows(front, i);
      assert |last| <= |secrets[i]|;
      ReplaceLength(RedactWith(MASK, front), last);
    } else {
      MaskStays(front);
      MaskMasked();
    }
  }

  /**
   Longest-first order masks a secret as a whole, however many secrets are parts of one another: a
   text that is exactly a secret becomes exactly the mask, unless one or two asterisks are
   themselves registered and come later.
   */
  lemma {:induction false} SecretBecomesMaskIff(secrets: seq<Secret>, k: nat)
    requires LongestFirst(secrets) && k < |secrets|
    ensures RedactWith(secrets[k], secrets) == MASK
            <==> forall j :: k < j < |secrets| ==> !ShorterThanMask(secrets[j])
  {
    var after := secrets[k + 1..];
    RedactedUpTo(secrets, k);
    if j :| k < j < |secrets| && ShorterThanMask(secrets[j]) {
      assert after[j - k - 1] == secrets[j];
      MaskGrows(after, j - k - 1);
    } else {
      MaskStays(after);
    }
  }

  // ----------------------------------------------- exactly which secrets are safe

  /** What `register_known_secret` accepts. */
  predicate Registrable(secret: string) {
    PythonText.Strip(secret) != ""
  }

  ghost predicate Registered(secrets: seq<Secret>) {
    LongestFirst(secrets) && forall s :: s in secrets ==> Registrable(s)
  }

  /** Whatever is registered beside it, this secret survives in no text. */
  ghost predicate AlwaysRemoved(secret: Secret) {
    forall secrets: seq<Secret>, text: string ::
      Registered(secrets) && secret in secrets ==> !Contains(RedactWith(text, secrets), secret)
  }

  lemma NonSpaceIsRegistrable(secret: string, i: nat)
    requires i < |secret| && !PythonText.IsSpace(secret[i])
    ensures Registrable(secret)
  {
    PythonText.StripTrims(secret);
  }

  lemma TooLongToOccur(text: string, secret: Secret)
    requires |text| < |secret|
    ensures !Contains(text, secret)
  {
    if Contains(text, secret) { ContainsShorter(text, secret); }
  }

  lemma ReplaceSkips(c: char, rest: string, secret: Secret, replaced: string)
    requires |rest| + 1 >= |secret| && !(secret <= [c] + rest) && Replace(rest, secret) == replaced
    ensures Replace([c] + rest, secret) == [c] + replaced
  {
    assert ([c] + rest)[1..] == rest;
  }

  /** The secret starts nowhere in `head` when `body` follows. */
  predicate StartsNowhere(head: string, body: string, secret: Secret) {
    head == "" || (!(secret <= head + body) && StartsNowhere(head[1..], body, secret))
  }

  lemma {:induction false} StartsNowhereIf(head: string, body: string, secret: Secret)
    requires forall k :: 0 <= k < |head| ==> !(secret <= (head + body)[k..])
    ensures StartsNowhere(head, body, secret)
  {
    if head != "" {
      assert (head + body)[0..] == head + body;
      forall k | 0 <= k < |head| - 1 ensures !(secret <= (head[1..] + body)[k..]) {
        assert (head[1..] + body)[k..] == (head + body)[k + 1..];
      }
      StartsNowhereIf(head[1..], body, secret);
    }
  }

  lemma Regroup(text: string, more: string)
    requires text != ""
    ensures text + more == [text[0]] + (text[1..] + more)
  {
  }

  /** Replacing leaves alone what comes before the first place a secret can start at. */
  lemma {:induction false} ReplaceFirst(head: string, body: string, secret: Secret, replaced: string)
    requires |secret| <= |body| && StartsNowhere(head, body, secret) && Replace(body, secret) == replaced
    ensures Replace(head + body, secret) == head + replaced
  {
    if head == "" {
      assert head + body == body && head + replaced == replaced;
    } else {
      ReplaceFirst(head[1..], body, secret, replaced);
      Regroup(head, body);
      Regroup(head, replaced);
      ReplaceSkips(head[0], head[1..] + body, secret, head[1..] + replaced);
    }
  }

  lemma ContainsMiddle(head: string, part: string, tail: string)
    ensures Contains(head + part + tail, part)
  {
    assert (head + part + tail)[|head|..] == part + tail;
    assert part <= part + tail;
    ContainsTail(head + part + tail, |head|, part);
  }

  lemma {:induction false} ReplaceOnce(head: string, secret: Secret, tail: string)
    requires forall k :: 0 <= k < |head| ==> !(secret <= (head + secret + tail)[k..])
    requires |tail| < |secret|
    ensures Replace(head + secret + tail, secret) == head + MASK + tail
  {
    var body := secret + tail;
    assert head + secret + tail == head + body && body[|secret|..] == tail;
    TooLongToOccur(tail, secret);
    ReplaceNothing(tail, secret);
    StartsNowhereIf(head, body, secret);
    ReplaceFirst(head, body, secret, MASK + tail);
    assert head + (MASK + tail) == head + MASK + tail;
  }

  /** A leading asterisk: the secret followed by its own remainder. */
  lemma {:induction false} LeadingAsteriskReturns(secret: Secret)
    requires secret[0] == '*'
    ensures Contains(Replace("" + secret + secret[1..], secret), secret)
  {
    var rest := secret[1..];
    ReplaceOnce("", secret, rest);
    assert "" + MASK + rest == "**" + secret + "";
    ContainsMiddle("**", secret, "");
  }

  lemma {:induction false} NotBeforeTrailing(secret: Secret, text: string, k: nat)
    requires secret[0] != '*' && secret[|secret| - 1] == '*' && k < |secret| - 1
    requires text == secret[..|secret| - 1] + secret + ""
    ensures !(secret <= text[k..])
  {
    var n := |secret|;
    var start := text[k..][..n];
    assert start[0] == secret[k] && start[n - 1] == secret[k];
    assert start != secret;
  }

  /** A trailing asterisk: the secret preceded by all of itself but that. */
  lemma {:induction false} TrailingAsteriskReturns(secret: Secret)
    requires secret[0] != '*' && secret[|secret| - 1] == '*'
    ensures Contains(Replace(secret[..|secret| - 1] + secret + "", secret), secret)
  {
    var head := secret[..|secret| - 1];
    forall k | 0 <= k < |head| ensures !(secret <= (head + secret + "")[k..]) {
      NotBeforeTrailing(secret, head + secret + "", k);
    }
    ReplaceOnce(head, secret, "");
    assert head + MASK + "" == "" + secret + "**";
    ContainsMiddle("", secret, "**");
  }

  lemma {:induction false} FirstTriple(part: string, i: nat) returns (first: nat)
    requires TripleAt(part, i)
    ensures TripleAt(part, first) && forall k: nat :: k < first ==> !TripleAt(part, k)
  {
    if k: nat :| k < i && TripleAt(part, k) {
      first := FirstTriple(part, k);
    } else {
      first := i;
    }
  }

  lemma {:induction false} NotBeforeTriple(secret: Secret, i: nat, text: string, k: nat)
    requires TripleAt(secret, i) && k < i && !TripleAt(secret, k)
    requires text == secret[..i] + secret + secret[i + 3..]
    ensures !(secret <= text[k..])
  {
    var start := text[k..][..|secret|];
    var d := if secret[k] != '*' then 0 else if secret[k + 1] != '*' then 1 else 2;
    assert secret[k + d] != '*' && secret[i + d] == '*';
    assert start[i + d] == secret[k + d];
    assert start != secret;
  }

  /** Three asterisks inside: the secret between what it has before and behind them. */
  lemma {:induction false} TripledAsteriskReturns(secret: Secret, i: nat)
    requires TripleAt(secret, i) && forall k: nat :: k < i ==> !TripleAt(secret, k)
    ensures Contains(Replace(secret[..i] + secret + secret[i + 3..], secret), secret)
  {
    var head, tail := secret[..i], secret[i + 3..];
    forall k | 0 <= k < |head| ensures !(secret <= (head + secret + tail)[k..]) {
      NotBeforeTriple(secret, i, head + secret + tail, k);
    }
    ReplaceOnce(head, secret, tail);
    assert secret[i..i + 3] == MASK;
    assert head + MASK + tail == "" + secret + "";
    ContainsMiddle("", secret, "");
  }

  /** A secret that is not mask-safe comes back out of its own removal. */
  lemma UnsafeReturns(secret: Secret) returns (text: string)
    requires !MaskSafe(secret)
    ensures Contains(Replace(text, secret), secret)
  {
    if secret[0] == '*' {
      text := "" + secret + secret[1..];
      LeadingAsteriskReturns(secret);
    } else if secret[|secret| - 1] == '*' {
      text := secret[..|secret| - 1] + secret + "";
      TrailingAsteriskReturns(secret);
    } else {
      var some: nat :| TripleAt(secret, some);
      var i := FirstTriple(secret, some);
      text := secret[..i] + secret + secret[i + 3..];
      TripledAsteriskReturns(secret, i);
    }
  }

  lemma RedactOne(text: string, secret: Secret)
    ensures RedactWith(text, [secret]) == Replace(text, secret)
  {
    assert [secret][..0] == [];
  }

  lemma UnsafeHasAsterisk(secret: Secret) returns (i: nat)
    requires !MaskSafe(secret)
    ensures i < |secret| && secret[i] == '*'
  {
    if secret[0] == '*' {
      i := 0;
    } else if secret[|secret| - 1] == '*' {
      i := |secret| - 1;
    } else {
      i :| TripleAt(secret, i);
    }
  }

  /**
   The exact condition: a secret is removed from every text, whatever else is
   registered, if and only if it neither starts nor ends with an asterisk nor holds
   three in a row.
   */
  lemma AlwaysRemovedIff(secret: Secret)
    ensures AlwaysRemoved(secret) <==> MaskSafe(secret)
  {
    if MaskSafe(secret) {
      forall secrets: seq<Secret>, text: string | Registered(secrets) && secret in secrets
        ensures !Contains(RedactWith(text, secrets), secret)
      {
        RedactRemoves(text, secrets, secret);
      }
    } else {
      var text := UnsafeReturns(secret);
      var i := UnsafeHasAsterisk(secret);
      NonSpaceIsRegistrable(secret, i);
      RedactOne(text, secret);
      assert Registered([secret]) && secret in [secret];
    }
  }

  // ------------------------------------------- exactly which registries are idempotent

  ghost predicate Idempotent(secrets: seq<Secret>) {
    forall text: string :: RedactWith(RedactWith(text, secrets), secrets) == RedactWith(text, secrets)
  }

  /** Replacing a secret that occurs changes the text, unless the secret is the mask. */
  lemma {:induction false} ReplaceChanges(text: string, secret: Secret)
    requires Contains(text, secret) && secret != MASK
    ensures Replace(text, secret) != text
    decreases |text|
  {
    ContainsShorter(text, secret);
    if secret <= text {
      var rest := text[|secret|..];
      ReplaceLength(rest, secret);
      if |secret| == 3 {
        assert (MASK + Replace(rest, secret))[..3] == MASK && text[..3] == secret;
      }
    } else {
      ReplaceChanges(text[1..], secret);
      assert ([text[0]] + Replace(text[1..], secret))[1..] == Replace(text[1..], secret);
    }
  }

  /**
   Redaction with any choice of these secrets, in any order, is idempotent exactly when each of
   them is mask-safe or the mask itself.
   */
  lemma IdempotentIff(secrets: seq<Secret>)
    ensures (forall chosen: seq<Secret> :: (forall s :: s in chosen ==> s in secrets) ==> Idempotent(chosen))
            <==> forall s :: s in secrets ==> MaskSafe(s) || s == MASK
  {
    if forall s :: s in secrets ==> MaskSafe(s) || s == MASK {
      forall chosen: seq<Secret>, text: string | forall s :: s in chosen ==> s in secrets
        ensures RedactWith(RedactWith(text, chosen), chosen) == RedactWith(text, chosen)
      {
        forall s | s in chosen && s != MASK ensures !Contains(RedactWith(text, chosen), s) {
          RedactRemoves(text, chosen, s);
        }
        RedactHarmless(RedactWith(text, chosen), chosen);
      }
    }
    forall s | s in secrets && !MaskSafe(s) && s != MASK
      ensures exists chosen: seq<Secret> :: (forall t :: t in chosen ==> t in secrets) && !Idempotent(chosen)
    {
      UnsafeNotIdempotent(s);
      assert forall t :: t in [s] ==> t in secrets;
    }
  }

  lemma UnsafeNotIdempotent(secret: Secret)
    requires !MaskSafe(secret) && secret != MASK
    ensures !Idempotent([secret])
  {
    var text := UnsafeReturns(secret);
    RedactOne(text, secret);
    RedactOne(Replace(text, secret), secret);
    ReplaceChanges(Replace(text, secret), secret);
  }

  // ------------------------------------- idempotence of one registry, in its own order

  /** The characters of a text that no mask can stand for. */
  function Visible(text: string): nat {
    if text == "" then 0 else (if text[0] == '*' then 0 else 1) + Visible(text[1..])
  }

  lemma {:induction false} VisibleConcat(a: string, b: string)
    ensures Visible(a + b) == Visible(a) + Visible(b)
  {
    if a == "" {
      assert a + b == b;
    } else {
      assert (a + b)[1..] == a[1..] + b;
      VisibleConcat(a[1..], b);
    }
  }

  lemma {:induction false} ReplaceHides(text: string, secret: Secret)
    ensures Visible(Replace(text, secret)) <= Visible(text)
    ensures Contains(text, secret) && Visible(secret) > 0 ==> Visible(Replace(text, secret)) < Visible(text)
    decreases |text|
  {
    if |text| < |secret| {
      if Contains(text, secret) { ContainsShorter(text, secret); }
    } else if secret <= text {
      var rest := text[|secret|..];
      ReplaceHides(rest, secret);
      VisibleConcat(secret, rest);
      VisibleConcat(MASK, Replace(rest, secret));
      MaskInvisible();
      assert text == secret + rest;
    } else {
      ReplaceHides(text[1..], secret);
      VisibleConcat([text[0]], Replace(text[1..], secret));
      VisibleConcat([text[0]], text[1..]);
      assert text == [text[0]] + text[1..];
    }
  }

  lemma MaskInvisible()
    ensures Visible(MASK) == 0
  {
    assert MASK[1..] == "**" && "**"[1..] == "*" && "*"[1..] == "";
  }

  lemma {:induction false} RedactHides(text: string, secrets: seq<Secret>)
    ensures Visible(RedactWith(text, secrets)) <= Visible(text)
  {
    if secrets != [] {
      RedactHides(text, secrets[..|secrets| - 1]);
      ReplaceHides(RedactWith(text, secrets[..|secrets| - 1]), secrets[|secrets| - 1]);
    }
  }

  /** A secret of more than asterisks that occurs costs visible characters, whatever is replaced around it. */
  lemma {:induction false} RedactUnchanged(text: string, secrets: seq<Secret>, secret: Secret)
    requires RedactWith(text, secrets) == text && secret in secrets && Visible(secret) > 0
    requires forall s :: s in secrets ==> s == MASK || Visible(s) > 0
    ensures !Contains(text, secret)
  {
    var front, last := secrets[..|secrets| - 1], secrets[|secrets| - 1];
    var before := RedactWith(text, front);
    RedactHides(text, front);
    ReplaceHides(before, last);
    if last == MASK { ReplaceMask(before); } else { ReplaceNothing(before, last); }
    if secret in front {
      RedactUnchanged(text, front, secret);
    } else {
      assert secrets == front + [last];
    }
  }

  function Stars(n: nat): string {
    seq(n, i => '*')
  }

  lemma {:induction false} InvisibleIsStars(text: string)
    requires Visible(text) == 0
    ensures text == Stars(|text|)
  {
    if text != "" { InvisibleIsStars(text[1..]); }
  }

  lemma {:induction false} StarsInvisible(n: nat)
    ensures Visible(Stars(n)) == 0
  {
    if n > 0 {
      assert Stars(n)[1..] == Stars(n - 1);
      StarsInvisible(n - 1);
    }
  }

  lemma {:induction false} StarsAreKept(n: nat, secret: Secret)
    requires Visible(secret) > 0
    ensures Replace(Stars(n), secret) == Stars(n)
  {
    StarsInvisible(n);
    ReplaceHides(Stars(n), secret);
    ReplaceNothing(Stars(n), secret);
  }

  /** What is left of `n` asterisks when every `k` of them become three. */
  function StarsLeft(n: nat, k: nat): nat
    requires k > 0
  {
    if n < k then n else 3 + StarsLeft(n - k, k)
  }

  lemma {:induction false} StarsReplaced(n: nat, secret: Secret)
    requires Visible(secret) == 0
    ensures Replace(Stars(n), secret) == Stars(StarsLeft(n, |secret|))
    decreases n
  {
    InvisibleIsStars(secret);
    if n >= |secret| {
      StarsReplaced(n - |secret|, secret);
      assert Stars(n)[|secret|..] == Stars(n - |secret|) && secret <= Stars(n);
      assert MASK + Stars(StarsLeft(n - |secret|, |secret|)) == Stars(StarsLeft(n, |secret|));
    }
  }

  /** A longer run than the mask shrinks. */
  lemma {:induction false} StarsLeftShrinks(n: nat, k: nat)
    requires k >= 3
    ensures StarsLeft(n, k) <= n && (StarsLeft(n, k) == n ==> k == 3 || n < k)
    decreases n
  {
    if n >= k { StarsLeftShrinks(n - k, k); }
  }

  /** As many asterisks as it takes to keep `p`. */
  function Enough(p: nat, k: nat): nat {
    if p == 0 then 0 else k + Enough(p - 1, k)
  }

  lemma {:induction false} EnoughLeft(n: nat, p: nat, k: nat)
    requires k > 0 && n >= Enough(p, k)
    ensures StarsLeft(n, k) >= p
  {
    if p > 0 { EnoughLeft(n - k, p - 1, k); }
  }

  /** There is a text of asterisks of which any number is left. */
  lemma {:induction false} StarsReach(secrets: seq<Secret>, p: nat) returns (n: nat, m: nat)
    ensures RedactWith(Stars(n), secrets) == Stars(m) && m >= p
  {
    if secrets == [] {
      n, m := p, p;
    } else {
      var front, last := secrets[..|secrets| - 1], secrets[|secrets| - 1];
      if Visible(last) > 0 {
        n, m := StarsReach(front, p);
        StarsAreKept(m, last);
      } else {
        var before;
        n, before := StarsReach(front, Enough(p, |last|));
        m := StarsLeft(before, |last|);
        StarsReplaced(before, last);
        EnoughLeft(before, p, |last|);
      }
    }
  }

  lemma {:induction false} StarsShrink(secrets: seq<Secret>, n: nat) returns (m: nat)
    requires forall s :: s in secrets && Visible(s) == 0 ==> |s| >= 3
    ensures RedactWith(Stars(n), secrets) == Stars(m) && m <= n
    ensures m == n ==> forall s :: s in secrets && Visible(s) == 0 ==> |s| == 3 || n < |s|
  {
    if secrets == [] {
      m := n;
    } else {
      var front, last := secrets[..|secrets| - 1], secrets[|secrets| - 1];
      assert secrets == front + [last];
      var before := StarsShrink(front, n);
      if Visible(last) > 0 {
        m := before;
        StarsAreKept(before, last);
      } else {
        m := StarsLeft(before, |last|);
        StarsReplaced(before, last);
        StarsLeftShrinks(before, |last|);
      }
    }
  }

  /** One or two asterisks become the mask, and the mask then grows. */
  lemma {:induction false} FewStarsNotIdempotent(secrets: seq<Secret>, k: nat)
    requires LongestFirst(secrets) && k < |secrets| && ShorterThanMask(secrets[k])
    ensures !Idempotent(secrets)
    decreases |secrets| - k
  {
    if j :| k < j < |secrets| && ShorterThanMask(secrets[j]) {
      FewStarsNotIdempotent(secrets, j);
    } else {
      SecretBecomesMaskIff(secrets, k);
      MaskGrows(secrets, k);
      assert RedactWith(RedactWith(secrets[k], secrets), secrets) != RedactWith(secrets[k], secrets);
    }
  }

  lemma {:induction false} ManyStarsNotIdempotent(secrets: seq<Secret>, secret: Secret)
    requires forall s :: s in secrets && Visible(s) == 0 ==> |s| >= 3
    requires secret in secrets && Visible(secret) == 0 && |secret| > 3
    ensures !Idempotent(secrets)
  {
    var n, m := StarsReach(secrets, |secret|);
    var less := StarsShrink(secrets, m);
    assert |Stars(less)| < |Stars(m)|;
    assert RedactWith(RedactWith(Stars(n), secrets), secrets) != RedactWith(Stars(n), secrets);
  }

  /** A registry with a secret of nothing but asterisks, other than the mask, is never idempotent. */
  lemma {:induction false} StarsNotIdempotent(secrets: seq<Secret>, secret: Secret)
    requires LongestFirst(secrets) && secret in secrets && Visible(secret) == 0 && secret != MASK
    ensures !Idempotent(secrets)
  {
    InvisibleIsStars(secret);
    if k :| 0 <= k < |secrets| && ShorterThanMask(secrets[k]) {
      FewStarsNotIdempotent(secrets, k);
    } else {
      forall s | s in secrets && Visible(s) == 0 ensures |s| >= 3 {
        InvisibleIsStars(s);
        assert Stars(1) == "*" && Stars(2) == "**";
      }
      assert Stars(3) == MASK;
      ManyStarsNotIdempotent(secrets, secret);
    }
  }

  /** No registered secret survives in any redacted text; the mask itself may. */
  ghost predicate RemovesAll(secrets: seq<Secret>) {
    forall text: string, s: Secret :: s in secrets && s != MASK ==> !Contains(RedactWith(text, secrets), s)
  }

  /**
   For each registry, in the order of the program: redacting twice is redacting once exactly when
   no registered secret survives redaction in any text.
   */
  lemma {:induction false} IdempotentIffRemovesAll(secrets: seq<Secret>)
    requires LongestFirst(secrets)
    ensures Idempotent(secrets) <==> RemovesAll(secrets)
  {
    if RemovesAll(secrets) {
      forall text: string ensures RedactWith(RedactWith(text, secrets), secrets) == RedactWith(text, secrets) {
        RedactHarmless(RedactWith(text, secrets), secrets);
      }
    }
    if Idempotent(secrets) {
      forall s | s in secrets ensures s == MASK || Visible(s) > 0 {
        if s != MASK && Visible(s) == 0 { StarsNotIdempotent(secrets, s); }
      }
      forall text: string, s: Secret | s in secrets && s != MASK ensures !Contains(RedactWith(text, secrets), s) {
        RedactUnchanged(RedactWith(text, secrets), secrets, s);
      }
    }
  }
}
