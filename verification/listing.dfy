/** The delivery run claims what the schedule lists. */
module Listing {
  import opened Basics
  import opened Model
  import opened Codec
  import opened Reducer
  import opened Invariant
  import opened Claiming
  import opened Outcomes
  import opened Schedule
  import opened Sorting

  /** Later than l by saved messages only. */
  predicate OnlyMessages(l: Ledger, saved: Ledger) {
    && saved == l.(deliveries := saved.deliveries) && saved.deliveries.Keys == l.deliveries.Keys
    && forall k {:trigger saved.deliveries[k]} :: k in l.deliveries ==>
         && saved.deliveries[k] == l.deliveries[k].(message := saved.deliveries[k].message)
         && (l.deliveries[k].message.Some? ==> saved.deliveries[k] == l.deliveries[k])
  }

  lemma SavingAddsOnlyMessages(l: Ledger, before: Ledger, configOid: Oid, key: Id, m: Message)
    requires OnlyMessages(l, before) && SaveStep(before, configOid, key, m).Next?
    ensures OnlyMessages(l, SaveStep(before, configOid, key, m).ledger)
  {
  }

  /** An open delivery that is due is due for its own destination's batch once its message is saved. */
  lemma ListedIsClaimable(l: Ledger, saved: Ledger, now: Time, later: Time, n: string, key: Id)
    requires Inv(l) && OnlyMessages(l, saved) && DueAt(l, key, n, now) && now <= later
    requires saved.deliveries[key].message.Some?
    ensures n in l.destinations && KeyDue(saved, l.destinations[n], key, later)
  {
    assert GoodDelivery(key, l.deliveries[key], l.destinations, l.events);
  }

  lemma {:induction false} AllDueKeysAreTaken(l: Ledger, d: Destination, keys: seq<Id>, now: Time)
    requires Distinct(keys) && forall k :: k in keys ==> KeyDue(l, d, k, now)
    ensures DueKeys(l, d, keys, now) == keys
  {
    if keys != [] {
      var n := |keys| - 1;
      AllDueKeysAreTaken(l, d, keys[..n], now);
      assert keys[n] !in keys[..n];
      assert keys == keys[..n] + [keys[n]];
    }
  }

  /** From a good ledger, due keys of one destination are all claimed, in their order, once their messages are saved. */
  lemma ClaimsEveryDueKey(l: Ledger, now: Time, keys: seq<Id>, n: string, saved: Ledger, batch: Id,
          attempts: map<Id, Id>, later: Time)
    requires Inv(l) && keys != [] && Distinct(keys) && (forall k :: k in keys ==> DueAt(l, k, n, now)) && now <= later
    requires later != NEVER
    requires OnlyMessages(l, saved) && forall k :: k in keys && k in saved.deliveries ==>
               saved.deliveries[k].message.Some?
    requires !BadAttempt(batch)
    requires forall k :: k in keys && k in l.deliveries ==>
               !BadAttempt(AttemptOf(attempts, k)) && AttemptOf(attempts, k) !in l.deliveries[k].attemptIds
    ensures var out := ClaimBatchStep(saved, l.policy.configOid, n, batch, keys, attempts, later);
            out.Ok? && out.value.claimed == keys
  {
    hide Inv, DueKeys;
    forall k | k in keys
      ensures n in l.destinations && DueAt(l, k, n, now) && KeyDue(saved, l.destinations[n], k, later)
    {
      ListedIsClaimable(l, saved, now, later, n, k);
    }
    assert keys[0] in keys;
    var d := l.destinations[n];
    AllDueKeysAreTaken(saved, d, keys, later);
    forall k | k in keys ensures Claimable(saved, d, n, k, attempts, later) {
      assert DueAt(l, k, n, now);
      assert saved.deliveries[k] == l.deliveries[k].(message := saved.deliveries[k].message);
    }
    ClaimKeysIsExact(saved, d, n, keys, attempts, later);
  }

  // -------------------------------------------------------------- nothing is forgotten

  /** The record is open, and neither it nor its destination has to wait. */
  predicate Ready(l: Ledger, key: Id, now: Time) {
    && key in l.deliveries && l.deliveries[key].destination in l.destinations
    && var r, d := l.deliveries[key], l.destinations[l.deliveries[key].destination];
       && r.status !in {Delivered, Skipped} && r.nextAttemptAt <= now && r.lease.until <= now
       && d.lease.until <= now && d.nextSendAt <= now
  }

  lemma ReadyIsDue(l: Ledger, key: Id, now: Time)
    requires Inv(l)
    ensures Ready(l, key, now) <==> Due(l, key, now)
  {
    if key in l.deliveries { OpenIsRouted(l, key); }
  }

  /** A choice lists ready records only: a hundred at most, and ten at most of one destination. */
  lemma ListedIsReady(l: Ledger, less: (Id, Id) -> bool, now: Time, keys: seq<Id>)
    requires Inv(l) && FairChoice(l, less, now, keys)
    ensures forall k :: k in keys ==> Ready(l, k, now)
    ensures |keys| <= 100 && forall n :: |Of(l, keys, n)| <= 10
  {
    hide Inv, Due, Ready, Of;
    forall k | k in keys ensures Ready(l, k, now) { ReadyIsDue(l, k, now); }
  }

  /** And every ready record, whatever became of it before, unless a cap is hit. */
  lemma ReadyIsListed(l: Ledger, less: (Id, Id) -> bool, now: Time, keys: seq<Id>, key: Id)
    requires Inv(l) && FairChoice(l, less, now, keys) && Ready(l, key, now)
    requires |keys| < 100 && |Of(l, keys, l.deliveries[key].destination)| < 10
    ensures key in keys
  {
    hide Inv, Due, Of;
    ReadyIsDue(l, key, now);
    assert DueAt(l, key, l.deliveries[key].destination, now);
  }

  /** So whatever a batch could claim once its message is saved is listed. */
  lemma WhatCouldBeClaimedIsListed(l: Ledger, less: (Id, Id) -> bool, now: Time, keys: seq<Id>, key: Id, saved: Ledger,
          batch: Id, attempt: Id)
    requires Inv(l) && FairChoice(l, less, now, keys) && key in l.deliveries
    requires |keys| < 100 && |Of(l, keys, l.deliveries[key].destination)| < 10
    requires Inv(saved) && OnlyMessages(l, saved)
    requires ClaimBatchStep(saved, l.policy.configOid, l.deliveries[key].destination, batch, [key], map[key := attempt],
               now).Ok?
    ensures key in keys
  {
    hide Inv, Due, Of, FairChoice, ClaimKeys, DueKeys;
    var n := l.deliveries[key].destination;
    OpenIsRouted(l, key);
    ClaimBatchIsExact(saved, l.policy.configOid, n, batch, [key], map[key := attempt], now);
    DueKeysFacts(saved, saved.destinations[n], [key], now);
    var claimed := DueKeys(saved, saved.destinations[n], [key], now);
    assert claimed[0] in claimed;
    ReadyIsListed(l, less, now, keys, key);
  }

  /** A failed record that is not given up is listed again once its wait is over and its destination is free. */
  lemma FailedIsListedAgain(l: Ledger, key: Id, attempt: Id, result: AttemptResult, now: Time, less: (Id, Id) -> bool,
          at: Time, keys: seq<Id>)
    requires Inv(l) && HolderFails(l, key, attempt, result, now) && now + 24 * HOUR <= at
    requires ApplyResult(l, key, attempt, result, now).ledger.deliveries[key].status != Skipped
    requires var after := ApplyResult(l, key, attempt, result, now).ledger;
             var n := after.deliveries[key].destination;
             && Inv(after) && FairChoice(after, less, at, keys) && |keys| < 100 && |Of(after, keys, n)| < 10
             && n in after.destinations && after.destinations[n].lease.until <= at
             && after.destinations[n].nextSendAt <= at
    ensures key in keys
  {
    hide Inv, Due, Of, FairChoice, ApplyResult;
    GivesUpExactly(l, key, attempt, result, now);
    ReadyIsListed(ApplyResult(l, key, attempt, result, now).ledger, less, at, keys, key);
  }

  /** When the event a record is about occurred. */
  function OccurredAt(l: Ledger, key: Id): Time
    requires Inv(l) && key in l.deliveries
  {
    OpenIsRouted(l, key);
    l.events[l.deliveries[key].eventId].occurredAt
  }

  /** A destination's oldest events come first: in the list, and before whatever is left for another run. */
  lemma OldestFirst(l: Ledger, less: (Id, Id) -> bool, now: Time, keys: seq<Id>, n: string)
    requires Inv(l) && FairChoice(l, less, now, keys)
    ensures forall k :: k in Of(l, keys, n) ==> k in l.deliveries
    ensures var listed := Of(l, keys, n);
            && (forall i, j :: 0 <= i < j < |listed| ==> OccurredAt(l, listed[i]) <= OccurredAt(l, listed[j]))
            && (forall k, p :: Ready(l, k, now) && l.deliveries[k].destination == n && k !in keys && p in listed ==>
                  OccurredAt(l, p) <= OccurredAt(l, k))
  {
    hide Inv, Due, Of;
    var listed := Of(l, keys, n);
    OfKeeps(l, keys, n);
    forall k | k in listed ensures k in l.deliveries { ReadyIsDue(l, k, now); }
    assert TakesEarliest(l, less, now, keys, n);
    forall i, j | 0 <= i < j < |listed| ensures OccurredAt(l, listed[i]) <= OccurredAt(l, listed[j]) {
      assert !Earlier(l, less, listed[j], listed[i]);
      EarlierOccurred(l, less, listed[j], listed[i]);
    }
    forall k, p | Ready(l, k, now) && l.deliveries[k].destination == n && k !in keys && p in listed
      ensures OccurredAt(l, p) <= OccurredAt(l, k)
    {
      ReadyIsDue(l, k, now);
      assert DueAt(l, k, n, now);
      EarlierOccurred(l, less, k, p);
    }
  }

  lemma EarlierOccurred(l: Ledger, less: (Id, Id) -> bool, a: Id, b: Id)
    requires Inv(l) && a in l.deliveries && b in l.deliveries && !Earlier(l, less, a, b)
    ensures OccurredAt(l, b) <= OccurredAt(l, a)
  {
    OpenIsRouted(l, a);
    OpenIsRouted(l, b);
  }
}
