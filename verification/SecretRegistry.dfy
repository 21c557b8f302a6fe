/**
 The process-wide registry of known secrets.  A secret may be registered several
 times; it stays known until every registration has been closed.
 */
module SecretRegistry {
  import opened Wrappers
  import opened Redaction
  import PythonText

  type Counter = map<Secret, nat>

  /** `sorted(..., key=len, reverse=True)`: after everything at least as long. */
  function Insert(sorted: seq<Secret>, secret: Secret): seq<Secret> {
    if sorted == [] then [secret]
    else if |sorted[0]| >= |secret| then [sorted[0]] + Insert(sorted[1..], secret)
    else [secret] + sorted
  }

  lemma {:induction false} InsertMembers(sorted: seq<Secret>, secret: Secret, x: Secret)
    ensures x in Insert(sorted, secret) <==> x == secret || x in sorted
  {
    if sorted != [] {
      InsertMembers(sorted[1..], secret, x);
      assert sorted == [sorted[0]] + sorted[1..];
    }
  }

  lemma {:induction false} InsertKeepsOrder(sorted: seq<Secret>, secret: Secret)
    requires LongestFirst(sorted) && secret !in sorted
    ensures LongestFirst(Insert(sorted, secret))
  {
    if sorted != [] && |sorted[0]| >= |secret| {
      InsertKeepsOrder(sorted[1..], secret);
      forall x | x in Insert(sorted[1..], secret) ensures |sorted[0]| >= |x| && sorted[0] != x {
        InsertMembers(sorted[1..], secret, x);
      }
    }
  }

  function Increment(counts: Counter, secret: Secret): Counter {
    counts[secret := if secret in counts then counts[secret] + 1 else 1]
  }

  /** A count that would reach zero removes the key. */
  function Decrement(counts: Counter, secret: Secret): Counter {
    if secret !in counts || counts[secret] <= 1 then counts - {secret}
    else counts[secret := counts[secret] - 1]
  }

  // ---------------------------------------------------------------- whole runs

  datatype Registration = Registration(secret: Secret, closed: bool)

  datatype Registry = Registry(counts: Counter, registrations: seq<Registration>)

  datatype Step =
    | Register(value: string)
    | Close(i: nat)

  function Next(r: Registry, step: Step): Registry {
    match step
    case Register(value) =>
      if value == "" || !Registrable(value) then r
      else Registry(Increment(r.counts, value), r.registrations + [Registration(value, false)])
    case Close(i) =>
      if i >= |r.registrations| || r.registrations[i].closed then r
      else
        var secret := r.registrations[i].secret;
        Registry(Decrement(r.counts, secret), r.registrations[i := Registration(secret, true)])
  }

  function Run(steps: seq<Step>): Registry {
    if steps == [] then Registry(map[], []) else Next(Run(steps[..|steps| - 1]), steps[|steps| - 1])
  }

  /** A value is registered exactly if it shows anything, and then once more. */
  lemma {:induction false} RegisterMeans(r: Registry, value: string)
    ensures var after, visible := Next(r, Register(value)), exists i :: 0 <= i < |value| && !PythonText.IsSpace(value[i]);
            && (!visible ==> after == r)
            && (visible ==>
                  && after.registrations == r.registrations + [Registration(value, false)]
                  && after.counts == r.counts[value := if value in r.counts then r.counts[value] + 1 else 1])
  {
    PythonText.StripTrims(value);
  }

  /** How many registrations of a secret are still open. */
  function Open(registrations: seq<Registration>, secret: Secret): nat {
    if registrations == [] then 0
    else Open(registrations[..|registrations| - 1], secret)
         + (if registrations[|registrations| - 1] == Registration(secret, false) then 1 else 0)
  }

  ghost predicate Counted(r: Registry) {
    && (forall s :: s in r.counts ==> r.counts[s] >= 1)
    && forall s: Secret :: Open(r.registrations, s) == if s in r.counts then r.counts[s] else 0
  }

  lemma {:induction false} OpenAfterRegister(registrations: seq<Registration>, secret: Secret, x: Secret)
    ensures Open(registrations + [Registration(secret, false)], x)
         == Open(registrations, x) + (if x == secret then 1 else 0)
  {
  }

  lemma {:induction false} OpenAfterClose(registrations: seq<Registration>, i: nat, x: Secret)
    requires i < |registrations| && !registrations[i].closed
    ensures Open(registrations, x)
         == Open(registrations[i := registrations[i].(closed := true)], x) + (if x == registrations[i].secret then 1 else 0)
  {
    var n := |registrations| - 1;
    var after := registrations[i := registrations[i].(closed := true)];
    if i < n {
      assert after[..n] == registrations[..n][i := registrations[i].(closed := true)];
      OpenAfterClose(registrations[..n], i, x);
    } else {
      assert after[..n] == registrations[..n];
    }
  }

  lemma {:induction false} OpenMeans(registrations: seq<Registration>, secret: Secret)
    ensures Open(registrations, secret) > 0 <==> Registration(secret, false) in registrations
  {
    if registrations != [] {
      var n := |registrations| - 1;
      assert registrations == registrations[..n] + [registrations[n]];
      OpenMeans(registrations[..n], secret);
    }
  }

  /** The counter counts open registrations, however often each is closed. */
  lemma {:induction false} RunCounted(steps: seq<Step>)
    ensures Counted(Run(steps))
  {
    if steps != [] {
      var r, last := Run(steps[..|steps| - 1]), steps[|steps| - 1];
      RunCounted(steps[..|steps| - 1]);
      var after := Next(r, last);
      match last {
        case Register(value) =>
          if value != "" && Registrable(value) {
            forall s: Secret
              ensures Open(after.registrations, s) == if s in after.counts then after.counts[s] else 0
            {
              OpenAfterRegister(r.registrations, value, s);
            }
          }
        case Close(i) =>
          if i < |r.registrations| && !r.registrations[i].closed {
            forall s: Secret
              ensures Open(after.registrations, s) == if s in after.counts then after.counts[s] else 0
            {
              OpenAfterClose(r.registrations, i, s);
            }
          }
      }
    }
  }

  /** A secret is known exactly while some registration of it is open. */
  lemma KnownWhileOpen(steps: seq<Step>, secret: Secret)
    ensures secret in Run(steps).counts <==> Registration(secret, false) in Run(steps).registrations
  {
    RunCounted(steps);
    OpenMeans(Run(steps).registrations, secret);
    assert Open(Run(steps).registrations, secret)
        == if secret in Run(steps).counts then Run(steps).counts[secret] else 0;
  }

  // ----------------------------------------------------- the registry in place

  /** An order in which the program may replace the keys of the counter. */
  ghost predicate Ordering(secrets: seq<Secret>, counts: Counter) {
    LongestFirst(secrets) && forall s :: s in secrets <==> s in counts
  }

  class SecretRegistration {
    const secret: Secret
    var closed: bool

    constructor (secret: Secret)
      ensures this.secret == secret && !closed
    {
      this.secret, closed := secret, false;
    }
  }

  class KnownSecrets {
    var counts: Counter

    constructor ()
      ensures counts == map[]
    {
      counts := map[];
    }

    method Register(value: string) returns (registration: Option<SecretRegistration>)
      modifies this
      ensures registration == None <==> !Registrable(value)
      ensures registration == None ==> counts == old(counts)
      ensures registration.Some? ==>
                && fresh(registration.value)
                && registration.value.secret == value
                && !registration.value.closed
                && counts == Increment(old(counts), value)
    {
      if PythonText.Strip(value) == "" {
        return None;
      }
      PythonText.StripTrims(value);
      counts := counts[value := if value in counts then counts[value] + 1 else 1];
      var added := new SecretRegistration(value);
      return Some(added);
    }

    method Close(registration: SecretRegistration)
      modifies this, registration
      ensures registration.closed
      ensures counts == if old(registration.closed) then old(counts) else Decrement(old(counts), registration.secret)
    {
      if registration.closed {
        return;
      }
      registration.closed := true;
      var count := if registration.secret in counts then counts[registration.secret] else 0;
      if count <= 1 {
        counts := counts - {registration.secret};
      } else {
        counts := counts[registration.secret := count - 1];
      }
    }

    method SortedSecrets() returns (secrets: seq<Secret>)
      ensures Ordering(secrets, counts)
    {
      secrets := [];
      var left := counts.Keys;
      while left != {}
        invariant left <= counts.Keys
        invariant LongestFirst(secrets)
        invariant forall s :: s in secrets <==> s in counts && s !in left
      {
        var secret :| secret in left;
        InsertKeepsOrder(secrets, secret);
        forall x ensures x in Insert(secrets, secret) <==> x == secret || x in secrets {
          InsertMembers(secrets, secret, x);
        }
        secrets := Insert(secrets, secret);
        left := left - {secret};
      }
    }

    /** `redact_text`. */
    method RedactText(value: string) returns (redacted: string)
      ensures exists secrets :: Ordering(secrets, counts) && redacted == RedactWith(value, secrets)
      ensures forall s :: s in counts && MaskSafe(s) ==> !Contains(redacted, s)
    {
      var secrets := SortedSecrets();
      redacted := value;
      for i := 0 to |secrets|
        invariant redacted == RedactWith(value, secrets[..i])
      {
        assert secrets[..i + 1][..i] == secrets[..i];
        redacted := Replace(redacted, secrets[i]);
      }
      assert secrets[..|secrets|] == secrets;
      forall s | s in counts && MaskSafe(s) ensures !Contains(redacted, s) {
        RedactRemoves(value, secrets, s);
      }
    }
  }
}
