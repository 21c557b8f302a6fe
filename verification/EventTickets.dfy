/**
 Single-use, expiring, bounded tickets that admit a websocket to one workflow.

 The program keys tickets by the SHA-256 digest of a random token; the digest is
 taken to be injective, so the model keys them by the token.  Times are integers
 read from one clock.
 */
module EventTickets {
  import opened Wrappers

  datatype Ticket = Ticket(token: string, workflow: string, expiresAt: int)

  const MAX_TOKEN_LENGTH := 256

  /** The tickets still alive at `now`, oldest first. */
  function Prune(tickets: seq<Ticket>, now: int): seq<Ticket> {
    if tickets == [] then []
    else (if tickets[0].expiresAt <= now then [] else [tickets[0]]) + Prune(tickets[1..], now)
  }

  /** Expired tickets go, then the oldest, until there is room for one more. */
  function Issued(tickets: seq<Ticket>, maxPending: nat, ticket: Ticket, now: int): seq<Ticket>
    requires maxPending >= 1
  {
    LastN(Prune(tickets, now), maxPending - 1) + [ticket]
  }

  function Without(tickets: seq<Ticket>, token: string): seq<Ticket> {
    if tickets == [] then []
    else (if tickets[0].token == token then [] else [tickets[0]]) + Without(tickets[1..], token)
  }

  function Find(tickets: seq<Ticket>, token: string): Option<Ticket> {
    if tickets == [] then None
    else if tickets[0].token == token then Some(tickets[0])
    else Find(tickets[1..], token)
  }

  function Redeem(tickets: seq<Ticket>, token: string, now: int): (seq<Ticket>, Option<string>) {
    if token == "" || |token| > MAX_TOKEN_LENGTH then (tickets, None)
    else
      var alive := Prune(tickets, now);
      match Find(alive, token)
      case None => (alive, None)
      case Some(t) => (Without(alive, token), if t.expiresAt <= now then None else Some(t.workflow))
  }

  // ---------------------------------------------------------------- whole runs

  datatype Step =
    | IssueTo(token: string, workflow: string, now: int)
    | Consume(token: string, now: int)

  /** The store with its history: every ticket ever issued, and every redemption. */
  datatype Ledger = Ledger(
    ttl: int,
    maxPending: nat,
    tickets: seq<Ticket>,
    issued: map<string, Ticket>,
    redeemed: seq<(string, string)>)

  function Init(ttl: int, maxPending: nat): Ledger {
    Ledger(ttl, maxPending, [], map[], [])
  }

  /** Tokens are random: a token that was issued before is not issued again. */
  function Next(l: Ledger, step: Step): Ledger
    requires l.maxPending >= 1
  {
    match step
    case IssueTo(token, workflow, now) =>
      if token in l.issued then l
      else
        var t := Ticket(token, workflow, now + l.ttl);
        l.(tickets := Issued(l.tickets, l.maxPending, t, now), issued := l.issued[token := t])
    case Consume(token, now) =>
      var (tickets, workflow) := Redeem(l.tickets, token, now);
      l.(tickets := tickets,
         redeemed := if workflow == None then l.redeemed else l.redeemed + [(token, workflow.value)])
  }

  function Run(l: Ledger, steps: seq<Step>): Ledger
    requires l.maxPending >= 1
    ensures Run(l, steps).maxPending == l.maxPending && Run(l, steps).ttl == l.ttl
  {
    if steps == [] then l else Next(Run(l, steps[..|steps| - 1]), steps[|steps| - 1])
  }

  ghost predicate Distinct(tickets: seq<Ticket>) {
    forall i, j :: 0 <= i < j < |tickets| ==> tickets[i].token != tickets[j].token
  }

  ghost predicate SingleUse(l: Ledger) {
    && |l.tickets| <= l.maxPending
    && Distinct(l.tickets)
    && (forall t :: t in l.tickets ==> t.token in l.issued && l.issued[t.token] == t)
    && (forall i :: 0 <= i < |l.redeemed| ==>
          l.redeemed[i].0 in l.issued && l.issued[l.redeemed[i].0].workflow == l.redeemed[i].1)
    && (forall i, j :: 0 <= i < j < |l.redeemed| ==> l.redeemed[i].0 != l.redeemed[j].0)
    && (forall i, t :: 0 <= i < |l.redeemed| && t in l.tickets ==> l.redeemed[i].0 != t.token)
  }

  lemma {:induction false} PruneMembers(tickets: seq<Ticket>, now: int, t: Ticket)
    ensures t in Prune(tickets, now) <==> t in tickets && t.expiresAt > now
  {
    if tickets != [] { PruneMembers(tickets[1..], now, t); }
  }

  lemma {:induction false} PruneDistinct(tickets: seq<Ticket>, now: int)
    requires Distinct(tickets)
    ensures Distinct(Prune(tickets, now)) && |Prune(tickets, now)| <= |tickets|
  {
    if tickets != [] {
      PruneDistinct(tickets[1..], now);
      forall t | t in Prune(tickets[1..], now) ensures t.token != tickets[0].token {
        PruneMembers(tickets[1..], now, t);
      }
    }
  }

  lemma {:induction false} WithoutMembers(tickets: seq<Ticket>, token: string, t: Ticket)
    ensures t in Without(tickets, token) <==> t in tickets && t.token != token
  {
    if tickets != [] { WithoutMembers(tickets[1..], token, t); }
  }

  lemma {:induction false} WithoutDistinct(tickets: seq<Ticket>, token: string)
    requires Distinct(tickets)
    ensures Distinct(Without(tickets, token)) && |Without(tickets, token)| <= |tickets|
  {
    if tickets != [] {
      WithoutDistinct(tickets[1..], token);
      forall t | t in Without(tickets[1..], token) ensures t.token != tickets[0].token {
        WithoutMembers(tickets[1..], token, t);
      }
    }
  }

  lemma {:induction false} FindMeaning(tickets: seq<Ticket>, token: string)
    ensures match Find(tickets, token)
            case None => forall t :: t in tickets ==> t.token != token
            case Some(t) => t in tickets && t.token == token
  {
    if tickets != [] { FindMeaning(tickets[1..], token); }
  }

  /** Issuing keeps some of the earlier tickets, within the capacity, and adds the new one. */
  lemma {:induction false} IssuedKeeps(tickets: seq<Ticket>, maxPending: nat, ticket: Ticket, now: int)
    requires maxPending >= 1 && Distinct(tickets)
    requires forall t :: t in tickets ==> t.token != ticket.token
    ensures Distinct(Issued(tickets, maxPending, ticket, now))
    ensures |Issued(tickets, maxPending, ticket, now)| <= maxPending
    ensures forall t :: t in Issued(tickets, maxPending, ticket, now) ==> t == ticket || t in tickets
  {
    PruneDistinct(tickets, now);
    var alive := Prune(tickets, now);
    forall t | t in LastN(alive, maxPending - 1) ensures t in tickets {
      assert t in alive;
      PruneMembers(tickets, now, t);
    }
  }

  lemma {:induction false} FreshTicketSingleUse(l: Ledger, ticket: Ticket, tickets: seq<Ticket>)
    requires SingleUse(l) && ticket.token !in l.issued
    requires Distinct(tickets) && |tickets| <= l.maxPending
    requires forall t :: t in tickets ==> t == ticket || t in l.tickets
    ensures SingleUse(l.(tickets := tickets, issued := l.issued[ticket.token := ticket]))
  {
  }

  lemma {:induction false} IssueKeepsSingleUse(l: Ledger, step: Step)
    requires l.maxPending >= 1 && SingleUse(l) && step.IssueTo?
    ensures SingleUse(Next(l, step))
  {
    if step.token !in l.issued {
      var ticket := Ticket(step.token, step.workflow, step.now + l.ttl);
      var tickets := Issued(l.tickets, l.maxPending, ticket, step.now);
      IssuedKeeps(l.tickets, l.maxPending, ticket, step.now);
      FreshTicketSingleUse(l, ticket, tickets);
      assert Next(l, step) == l.(tickets := tickets, issued := l.issued[ticket.token := ticket]);
    }
  }

  /** Redeeming keeps some of the tickets; one it gives the workflow of was there and is gone. */
  lemma {:induction false} RedeemKeeps(tickets: seq<Ticket>, token: string, now: int)
    requires Distinct(tickets)
    ensures var (rest, workflow) := Redeem(tickets, token, now);
            && Distinct(rest) && |rest| <= |tickets| && (forall t :: t in rest ==> t in tickets)
            && (workflow.Some? ==>
                  && (exists t :: t in tickets && t.token == token && t.workflow == workflow.value)
                  && forall t :: t in rest ==> t.token != token)
  {
    var alive := Prune(tickets, now);
    PruneDistinct(tickets, now);
    WithoutDistinct(alive, token);
    FindMeaning(alive, token);
    forall t | t in alive ensures t in tickets { PruneMembers(tickets, now, t); }
    forall t | t in Without(alive, token) ensures t in tickets && t.token != token {
      WithoutMembers(alive, token, t);
    }
  }

  lemma {:induction false} RedeemedSingleUse(l: Ledger, rest: seq<Ticket>, token: string, workflow: string)
    requires SingleUse(l) && Distinct(rest) && |rest| <= |l.tickets|
    requires forall t :: t in rest ==> t in l.tickets && t.token != token
    requires exists t :: t in l.tickets && t.token == token && t.workflow == workflow
    ensures SingleUse(l.(tickets := rest, redeemed := l.redeemed + [(token, workflow)]))
  {
  }

  lemma {:induction false} FewerSingleUse(l: Ledger, rest: seq<Ticket>)
    requires SingleUse(l) && Distinct(rest) && |rest| <= |l.tickets| && forall t :: t in rest ==> t in l.tickets
    ensures SingleUse(l.(tickets := rest))
  {
  }

  lemma {:induction false} ConsumeKeepsSingleUse(l: Ledger, step: Step)
    requires l.maxPending >= 1 && SingleUse(l) && step.Consume?
    ensures SingleUse(Next(l, step))
  {
    var (rest, workflow) := Redeem(l.tickets, step.token, step.now);
    RedeemKeeps(l.tickets, step.token, step.now);
    if workflow.Some? {
      RedeemedSingleUse(l, rest, step.token, workflow.value);
    } else {
      FewerSingleUse(l, rest);
    }
  }

  /**
   Over every run: at most `maxPending` tickets are held, each is redeemed at most
   once, and only for the workflow it was issued to.
   */
  lemma {:induction false} RunSingleUse(ttl: int, maxPending: nat, steps: seq<Step>)
    requires maxPending >= 1
    ensures SingleUse(Run(Init(ttl, maxPending), steps))
  {
    if steps != [] {
      var before, last := steps[..|steps| - 1], steps[|steps| - 1];
      RunSingleUse(ttl, maxPending, before);
      match last
      case IssueTo(_, _, _) => IssueKeepsSingleUse(Run(Init(ttl, maxPending), before), last);
      case Consume(_, _) => ConsumeKeepsSingleUse(Run(Init(ttl, maxPending), before), last);
    }
  }

  function Issues(steps: seq<Step>): nat {
    if steps == [] then 0
    else Issues(steps[..|steps| - 1]) + (if steps[|steps| - 1].IssueTo? then 1 else 0)
  }

  /** The ticket is present and no more than `later` tickets are younger. */
  ghost predicate HeldWith(tickets: seq<Ticket>, t: Ticket, later: nat) {
    exists i :: 0 <= i < |tickets| && tickets[i] == t && |tickets| - 1 - i <= later
  }

  lemma {:induction false} PruneKeepsHeld(tickets: seq<Ticket>, now: int, t: Ticket, i: nat) returns (k: nat)
    requires i < |tickets| && tickets[i] == t && t.expiresAt > now
    ensures k < |Prune(tickets, now)| && Prune(tickets, now)[k] == t
    ensures |Prune(tickets, now)| - 1 - k <= |tickets| - 1 - i
  {
    if i == 0 {
      k := 0;
      PruneShrinks(tickets[1..], now);
    } else {
      k := PruneKeepsHeld(tickets[1..], now, t, i - 1);
      k := k + if tickets[0].expiresAt <= now then 0 else 1;
    }
  }

  lemma {:induction false} PruneShrinks(tickets: seq<Ticket>, now: int)
    ensures |Prune(tickets, now)| <= |tickets|
  {
    if tickets != [] { PruneShrinks(tickets[1..], now); }
  }

  lemma {:induction false} WithoutKeepsHeld(tickets: seq<Ticket>, token: string, t: Ticket, i: nat) returns (k: nat)
    requires i < |tickets| && tickets[i] == t && t.token != token
    ensures k < |Without(tickets, token)| && Without(tickets, token)[k] == t
    ensures |Without(tickets, token)| - 1 - k <= |tickets| - 1 - i
  {
    if i == 0 {
      k := 0;
      WithoutShrinks(tickets[1..], token);
    } else {
      k := WithoutKeepsHeld(tickets[1..], token, t, i - 1);
      k := k + if tickets[0].token == token then 0 else 1;
    }
  }

  lemma {:induction false} WithoutShrinks(tickets: seq<Ticket>, token: string)
    ensures |Without(tickets, token)| <= |tickets|
  {
    if tickets != [] { WithoutShrinks(tickets[1..], token); }
  }

  lemma {:induction false} PruneHolds(tickets: seq<Ticket>, now: int, t: Ticket, later: nat)
    requires HeldWith(tickets, t, later) && now < t.expiresAt
    ensures HeldWith(Prune(tickets, now), t, later)
  {
    var i :| 0 <= i < |tickets| && tickets[i] == t && |tickets| - 1 - i <= later;
    var k := PruneKeepsHeld(tickets, now, t, i);
  }

  /** A ticket keeps its distance from the end among the last `n`, and is one further from it behind a new one. */
  lemma {:induction false} LastNKeepsPlace(tickets: seq<Ticket>, n: nat, ticket: Ticket, k: nat)
    requires k < |tickets| && |tickets| - k <= n
    ensures var kept := LastN(tickets, n);
            |kept| >= |tickets| - k && (kept + [ticket])[|kept| - (|tickets| - k)] == tickets[k]
  {
  }

  lemma {:induction false} HeldAt(tickets: seq<Ticket>, t: Ticket, i: nat, later: nat)
    requires i < |tickets| && tickets[i] == t && |tickets| - 1 - i <= later
    ensures HeldWith(tickets, t, later)
  {
  }

  lemma {:induction false} LastNHolds(tickets: seq<Ticket>, n: nat, ticket: Ticket, t: Ticket, later: nat)
    requires HeldWith(tickets, t, later) && later < n
    ensures HeldWith(LastN(tickets, n) + [ticket], t, later + 1)
  {
    var k :| 0 <= k < |tickets| && tickets[k] == t && |tickets| - 1 - k <= later;
    LastNKeepsPlace(tickets, n, ticket, k);
    var kept := LastN(tickets, n);
    HeldAt(kept + [ticket], t, |kept| - (|tickets| - k), later + 1);
  }

  lemma {:induction false} IssueKeepsHeld(tickets: seq<Ticket>, maxPending: nat, ticket: Ticket, now: int, t: Ticket, later: nat)
    requires HeldWith(tickets, t, later) && now < t.expiresAt && later + 1 < maxPending
    ensures HeldWith(Issued(tickets, maxPending, ticket, now), t, later + 1)
  {
    PruneHolds(tickets, now, t, later);
    LastNHolds(Prune(tickets, now), maxPending - 1, ticket, t, later);
  }

  lemma RedeemKeepsHeld(tickets: seq<Ticket>, token: string, now: int, t: Ticket, later: nat)
    requires HeldWith(tickets, t, later) && now < t.expiresAt && token != t.token
    ensures HeldWith(Redeem(tickets, token, now).0, t, later)
  {
    var i :| 0 <= i < |tickets| && tickets[i] == t && |tickets| - 1 - i <= later;
    var k := PruneKeepsHeld(tickets, now, t, i);
    var m := WithoutKeepsHeld(Prune(tickets, now), token, t, k);
  }

  lemma StepKeepsHeld(l: Ledger, step: Step, t: Ticket, later: nat)
    requires l.maxPending >= 1 && HeldWith(l.tickets, t, later)
    requires step.now < t.expiresAt
    requires step.Consume? ==> step.token != t.token
    requires step.IssueTo? ==> later + 1 < l.maxPending
    ensures HeldWith(Next(l, step).tickets, t, if step.IssueTo? then later + 1 else later)
  {
    match step
    case IssueTo(token, workflow, now) =>
      if token !in l.issued {
        IssueKeepsHeld(l.tickets, l.maxPending, Ticket(token, workflow, now + l.ttl), now, t, later);
      }
    case Consume(token, now) =>
      RedeemKeepsHeld(l.tickets, token, now, t, later);
  }

  /**
   A ticket that is not consumed and is followed by fewer than `maxPending` issues
   is redeemable exactly until it expires.
   */
  lemma {:induction false} RedeemableUntilExpiry(l: Ledger, t: Ticket, steps: seq<Step>, now: int)
    requires l.maxPending >= 1 && SingleUse(l)
    requires l.tickets != [] && l.tickets[|l.tickets| - 1] == t
    requires forall s :: s in steps ==> s.now < t.expiresAt && (s.Consume? ==> s.token != t.token)
    requires Issues(steps) < l.maxPending
    requires t.token != "" && |t.token| <= MAX_TOKEN_LENGTH
    ensures Redeem(Run(l, steps).tickets, t.token, now).1
            == if now < t.expiresAt then Some(t.workflow) else None
  {
    HeldThrough(l, t, steps);
    RunSingleUseFrom(l, steps);
    var end := Run(l, steps);
    var alive := Prune(end.tickets, now);
    PruneMembers(end.tickets, now, t);
    FindMeaning(alive, t.token);
    if Find(alive, t.token).Some? {
      var found := Find(alive, t.token).value;
      PruneMembers(end.tickets, now, found);
    }
  }

  lemma {:induction false} HeldThrough(l: Ledger, t: Ticket, steps: seq<Step>)
    requires l.maxPending >= 1
    requires l.tickets != [] && l.tickets[|l.tickets| - 1] == t
    requires forall s :: s in steps ==> s.now < t.expiresAt && (s.Consume? ==> s.token != t.token)
    requires Issues(steps) < l.maxPending
    ensures HeldWith(Run(l, steps).tickets, t, Issues(steps))
  {
    if steps != [] {
      var before, last := steps[..|steps| - 1], steps[|steps| - 1];
      assert last in steps && forall s :: s in before ==> s in steps;
      HeldThrough(l, t, before);
      StepKeepsHeld(Run(l, before), last, t, Issues(before));
    }
  }

  lemma {:induction false} RunSingleUseFrom(l: Ledger, steps: seq<Step>)
    requires l.maxPending >= 1 && SingleUse(l)
    ensures SingleUse(Run(l, steps))
  {
    if steps != [] {
      var before, last := steps[..|steps| - 1], steps[|steps| - 1];
      RunSingleUseFrom(l, before);
      match last
      case IssueTo(_, _, _) => IssueKeepsSingleUse(Run(l, before), last);
      case Consume(_, _) => ConsumeKeepsSingleUse(Run(l, before), last);
    }
  }

  /** A blank or overlong token is refused at once; any other redeems the live ticket it names. */
  lemma {:induction false} RedeemMeans(tickets: seq<Ticket>, token: string, now: int, t: Ticket)
    requires Distinct(tickets)
    ensures token == "" || |token| > 256 ==> Redeem(tickets, token, now) == (tickets, None)
    ensures 1 <= |token| <= 256 && t in tickets && t.token == token && t.expiresAt > now ==>
              Redeem(tickets, token, now).1 == Some(t.workflow)
    ensures 1 <= |token| <= 256 ==>
              (t in Redeem(tickets, token, now).0 <==> t in tickets && t.expiresAt > now && t.token != token)
  {
    var alive := Prune(tickets, now);
    PruneMembers(tickets, now, t);
    FindMeaning(alive, token);
    PruneDistinct(tickets, now);
    WithoutMembers(alive, token, t);
    if Find(alive, token).Some? { PruneMembers(tickets, now, Find(alive, token).value); }
    if t in alive && t.token == token && Find(alive, token).Some? {
      var i :| 0 <= i < |alive| && alive[i] == t;
      var j :| 0 <= j < |alive| && alive[j] == Find(alive, token).value;
    }
  }

  // -------------------------------------------------------- the store in place

  class EventTicketStore {
    const ttl: int
    const maxPending: nat
    var tickets: seq<Ticket>

    constructor (ttl: int, maxPending: nat)
      requires ttl > 0 && maxPending >= 1
      ensures this.ttl == ttl && this.maxPending == maxPending && tickets == []
    {
      this.ttl, this.maxPending, tickets := ttl, maxPending, [];
    }

    method Issue(token: string, workflowId: string, now: int) returns (issued: Ticket)
      requires maxPending >= 1
      modifies this`tickets
      ensures issued == Ticket(token, workflowId, now + ttl)
      ensures tickets == Issued(old(tickets), maxPending, issued, now)
    {
      issued := Ticket(token, workflowId, now + ttl);
      DropExpired(now);
      ghost var alive := tickets;
      while |tickets| >= maxPending
        invariant tickets == LastN(alive, |tickets|)
        invariant |tickets| >= maxPending - 1 || tickets == alive
      {
        tickets := tickets[1..];
      }
      tickets := tickets + [issued];
    }

    method Consume(token: string, now: int) returns (workflowId: Option<string>)
      modifies this`tickets
      ensures (tickets, workflowId) == Redeem(old(tickets), token, now)
    {
      if token == "" || |token| > MAX_TOKEN_LENGTH {
        return None;
      }
      DropExpired(now);
      var entry := Find(tickets, token);
      if entry == None {
        return None;
      }
      tickets := Without(tickets, token);
      workflowId := if entry.value.expiresAt <= now then None else Some(entry.value.workflow);
    }

    method DropExpired(now: int)
      modifies this`tickets
      ensures tickets == Prune(old(tickets), now)
    {
      var alive: seq<Ticket> := [];
      var i := |tickets|;
      while i > 0
        invariant 0 <= i <= |tickets|
        invariant tickets == old(tickets)
        invariant alive == Prune(tickets[i..], now)
      {
        i := i - 1;
        assert tickets[i..][1..] == tickets[i + 1..];
        if tickets[i].expiresAt > now {
          alive := [tickets[i]] + alive;
        }
      }
      tickets := alive;
    }
  }
}
