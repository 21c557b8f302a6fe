/**
 What replacing a secret in a text gives, said about the text: the parts between the secret's
 occurrences from the left stay, and each occurrence becomes the mask.
 */
module Replacement {
  import opened Redaction

  function Joined(parts: seq<string>, between: string): string
    requires parts != []
  {
    if |parts| == 1 then parts[0] else parts[0] + between + Joined(parts[1..], between)
  }

  /** The secret ends `part + secret` and occurs nowhere before. */
  ghost predicate EndsFirst(part: string, secret: Secret) {
    forall k :: 0 <= k < |part| ==> !(secret <= (part + secret)[k..])
  }

  /** `parts` are what is left of a text when the secret is taken out from the left. */
  ghost predicate Around(text: string, secret: Secret, parts: seq<string>) {
    && parts != [] && text == Joined(parts, secret)
    && (forall i :: 0 <= i < |parts| - 1 ==> EndsFirst(parts[i], secret))
    && !Contains(parts[|parts| - 1], secret)
  }

  lemma {:induction false} AroundRest(parts: seq<string>, secret: Secret)
    requires |parts| > 1 && Around(Joined(parts, secret), secret, parts)
    ensures Around(Joined(parts[1..], secret), secret, parts[1..])
    ensures Joined(parts, secret) == parts[0] + (secret + Joined(parts[1..], secret))
    ensures EndsFirst(parts[0], secret)
  {
    var rest := parts[1..];
    forall i | 0 <= i < |rest| - 1 ensures EndsFirst(rest[i], secret) { assert rest[i] == parts[i + 1]; }
    assert rest[|rest| - 1] == parts[|parts| - 1];
  }

  lemma {:induction false} NowhereBefore(part: string, secret: Secret, rest: string)
    requires EndsFirst(part, secret)
    ensures StartsNowhere(part, secret + rest, secret)
  {
    forall k | 0 <= k < |part| ensures !(secret <= (part + (secret + rest))[k..]) {
      assert (part + (secret + rest))[k..][..|secret|] == (part + secret)[k..][..|secret|];
    }
    StartsNowhereIf(part, secret + rest, secret);
  }

  /** Whatever parts a text is taken into, replacing puts the mask between them. */
  lemma {:induction false} ReplaceBetween(text: string, secret: Secret, parts: seq<string>)
    requires Around(text, secret, parts)
    ensures Replace(text, secret) == Joined(parts, "***")
    decreases |parts|
  {
    if |parts| == 1 {
      ReplaceNothing(text, secret);
    } else {
      var rest := Joined(parts[1..], secret);
      AroundRest(parts, secret);
      ReplaceBetween(rest, secret, parts[1..]);
      assert (secret + rest)[|secret|..] == rest;
      NowhereBefore(parts[0], secret, rest);
      ReplaceFirst(parts[0], secret + rest, secret, "***" + Joined(parts[1..], "***"));
      assert parts[0] + ("***" + Joined(parts[1..], "***")) == Joined(parts, "***");
    }
  }

  lemma {:induction false} OneMorePart(secret: Secret, rest: string, parts: seq<string>)
    requires Around(rest, secret, parts)
    ensures Around(secret + rest, secret, [""] + parts)
  {
    var all := [""] + parts;
    assert all[1..] == parts;
    assert "" + secret + Joined(parts, secret) == secret + rest;
    forall i | 0 <= i < |all| - 1 ensures EndsFirst(all[i], secret) { if i > 0 { assert all[i] == parts[i - 1]; } }
  }

  lemma {:induction false} LongerFirst(c: char, rest: string, secret: Secret, parts: seq<string>)
    requires Around(rest, secret, parts) && !(secret <= [c] + rest)
    ensures Around([c] + rest, secret, [[c] + parts[0]] + parts[1..])
  {
    var all := [[c] + parts[0]] + parts[1..];
    assert all[1..] == parts[1..];
    if |parts| == 1 {
      assert ([c] + rest)[1..] == rest;
    } else {
      AroundRest(parts, secret);
      assert [c] + rest == [c] + parts[0] + secret + Joined(parts[1..], secret);
      LongerEndsFirst(c, parts[0], secret, Joined(parts[1..], secret));
      forall i | 0 <= i < |all| - 1 ensures EndsFirst(all[i], secret) { if i > 0 { assert all[i] == parts[i]; } }
    }
  }

  lemma {:induction false} LongerEndsFirst(c: char, part: string, secret: Secret, rest: string)
    requires EndsFirst(part, secret) && !(secret <= [c] + (part + (secret + rest)))
    ensures EndsFirst([c] + part, secret)
  {
    var longer := [c] + part + secret;
    NotAtFront(c, part, secret, rest);
    assert longer[0..] == longer;
    forall k | 0 < k < |part| + 1 ensures !(secret <= longer[k..]) {
      assert longer[k..] == (part + secret)[k - 1..];
    }
  }

  lemma {:induction false} NotAtFront(c: char, part: string, secret: Secret, rest: string)
    requires !(secret <= [c] + (part + (secret + rest)))
    ensures !(secret <= [c] + part + secret)
  {
    assert [c] + (part + (secret + rest)) == ([c] + part + secret) + rest;
  }

  /** Every text can be taken into such parts. */
  lemma {:induction false} PartsExist(text: string, secret: Secret) returns (parts: seq<string>)
    ensures Around(text, secret, parts)
    decreases |text|
  {
    if |text| < |secret| {
      parts := [text];
      TooLongToOccur(text, secret);
    } else if secret <= text {
      parts := PartsExist(text[|secret|..], secret);
      OneMorePart(secret, text[|secret|..], parts);
      assert text == secret + text[|secret|..];
      parts := [""] + parts;
    } else {
      parts := PartsExist(text[1..], secret);
      assert text == [text[0]] + text[1..];
      LongerFirst(text[0], text[1..], secret, parts);
      parts := [[text[0]] + parts[0]] + parts[1..];
    }
  }

  /** Replacing is exactly this. */
  lemma {:induction false} ReplaceIff(text: string, secret: Secret, replaced: string)
    ensures replaced == Replace(text, secret)
            <==> exists parts :: Around(text, secret, parts) && replaced == Joined(parts, "***")
  {
    var parts := PartsExist(text, secret);
    ReplaceBetween(text, secret, parts);
    if other :| Around(text, secret, other) && replaced == Joined(other, "***") { ReplaceBetween(text, secret, other); }
  }
}
