/** Exactly what a batch claim claims, and why replaying one is harmless. */
module Claiming {
  import opened Basics
  import opened Model
  import opened Codec
  import opened Reducer
  import opened Guard
  import opened Invariant

  predicate KeyDue(l: Ledger, d: Destination, key: Id, now: Time) {
    key in l.deliveries && BatchKeyDue(l, d, l.deliveries[key], now)
  }

  /** The due keys of a list, in its order, each at its first occurrence. */
  function DueKeys(l: Ledger, d: Destination, keys: seq<Id>, now: Time): seq<Id> {
    if keys == [] then []
    else
      var before := DueKeys(l, d, keys[..|keys| - 1], now);
      var key := keys[|keys| - 1];
      if KeyDue(l, d, key, now) && key !in before then before + [key] else before
  }

  function AttemptOf(attempts: map<Id, Id>, key: Id): Id {
    if key in attempts then attempts[key] else NO_ID
  }

  /** A key a claim does not refuse: known, of this destination, with a proper attempt that is new if it is due. */
  predicate Claimable(l: Ledger, d: Destination, destination: string, key: Id, attempts: map<Id, Id>, now: Time) {
    && key in l.deliveries && l.deliveries[key].destination == destination && !BadAttempt(AttemptOf(attempts, key))
    && (KeyDue(l, d, key, now) ==> AttemptOf(attempts, key) !in l.deliveries[key].attemptIds)
  }

  predicate AllClaimable(l: Ledger, d: Destination, destination: string, keys: seq<Id>, attempts: map<Id, Id>,
          now: Time)
  {
    forall k {:trigger k in keys} :: k in keys ==> Claimable(l, d, destination, k, attempts, now)
  }

  /** The deliveries with each listed key claimed once. */
  function ClaimedDeliveries(l: Ledger, claimed: seq<Id>, attempts: map<Id, Id>, now: Time): map<Id, Record> {
    map k | k in l.deliveries ::
      if k in claimed then ClaimedRecord(l.deliveries[k], AttemptOf(attempts, k), now) else l.deliveries[k]
  }

  lemma ClaimedIsNotDueAgain(l: Ledger, d: Destination, r: Record, attempt: Id, now: Time)
    ensures !BatchKeyDue(l, d, ClaimedRecord(r, attempt, now), now)
  {
  }

  lemma {:induction false} DueKeysFacts(l: Ledger, d: Destination, keys: seq<Id>, now: Time)
    ensures Distinct(DueKeys(l, d, keys, now))
    ensures forall k :: k in DueKeys(l, d, keys, now) <==> k in keys && KeyDue(l, d, k, now)
  {
    if keys != [] {
      var prefix := keys[..|keys| - 1];
      DueKeysFacts(l, d, prefix, now);
      assert forall k :: k in keys <==> k in prefix || k == keys[|keys| - 1];
    }
  }

  lemma ClaimOneMore(l: Ledger, claimed: seq<Id>, key: Id, attempts: map<Id, Id>, now: Time)
    requires key in l.deliveries && key !in claimed
    ensures ClaimedDeliveries(l, claimed + [key], attempts, now)
            == ClaimedDeliveries(l, claimed, attempts, now)[
                 key := ClaimedRecord(l.deliveries[key], AttemptOf(attempts, key), now)]
  {
  }

  /** A list of claims succeeds exactly when every key is claimable, and then claims exactly the due ones, once each. */
  lemma {:induction false} ClaimKeysIsExact(l: Ledger, d: Destination, destination: string, keys: seq<Id>,
          attempts: map<Id, Id>, now: Time)
    ensures ClaimKeys(l, d, destination, keys, attempts, now).Ok?
            <==> AllClaimable(l, d, destination, keys, attempts, now)
    ensures ClaimKeys(l, d, destination, keys, attempts, now).Ok? ==>
              var due := DueKeys(l, d, keys, now);
              ClaimKeys(l, d, destination, keys, attempts, now).value
                  == Claims(ClaimedDeliveries(l, due, attempts, now), due)
    ensures ClaimKeys(l, d, destination, keys, attempts, now).Err? ==>
              ClaimKeys(l, d, destination, keys, attempts, now).error == InvalidState
  {
    if keys == [] {
      assert ClaimedDeliveries(l, [], attempts, now) == l.deliveries;
    } else {
      var prefix := keys[..|keys| - 1];
      var key := keys[|keys| - 1];
      ClaimKeysIsExact(l, d, destination, prefix, attempts, now);
      assert forall k :: k in keys <==> k in prefix || k == key;
      assert AllClaimable(l, d, destination, keys, attempts, now)
             <==> AllClaimable(l, d, destination, prefix, attempts, now)
                  && Claimable(l, d, destination, key, attempts, now) by {
        assert key in keys;
        assert forall k :: k in prefix ==> k in keys;
      }
      var due := DueKeys(l, d, prefix, now);
      DueKeysFacts(l, d, prefix, now);
      if AllClaimable(l, d, destination, prefix, attempts, now) && key in l.deliveries {
        if key in due {
          ClaimedIsNotDueAgain(l, d, l.deliveries[key], AttemptOf(attempts, key), now);
        } else if KeyDue(l, d, key, now) {
          ClaimOneMore(l, due, key, attempts, now);
        }
      }
    }
  }

  /** What a batch claim promises its caller. */
  lemma ClaimBatchIsExact(l: Ledger, configOid: Oid, destination: string, batch: Id, keys: seq<Id>,
          attempts: map<Id, Id>, now: Time)
    requires ClaimBatchStep(l, configOid, destination, batch, keys, attempts, now).Ok?
    ensures var out := ClaimBatchStep(l, configOid, destination, batch, keys, attempts, now).value;
            var d := l.destinations[destination];
            && out.claimed == DueKeys(l, d, keys, now) && out.claimed != [] && Distinct(out.claimed)
            && out.ledger.deliveries == ClaimedDeliveries(l, out.claimed, attempts, now)
            && (forall k :: k in out.claimed ==>
                  k in keys && KeyDue(l, d, k, now) && AttemptOf(attempts, k) !in l.deliveries[k].attemptIds)
  {
    var d := l.destinations[destination];
    ClaimKeysIsExact(l, d, destination, keys, attempts, now);
    DueKeysFacts(l, d, keys, now);
  }

  /**
   * Replay: in any ledger later than the one a claim landed in, repeating the
   * claim never counts a second attempt for a record the first one claimed.
   */
  lemma ReplayCountsOnce(h: seq<Ledger>, relations: seq<Relation>, i: nat, j: nat, configOid: Oid, destination: string,
          batch: Id, keys: seq<Id>, attempts: map<Id, Id>, now: Time, later: Time, key: Id)
    requires History(h, relations) && i + 1 <= j < |h|
    requires ClaimBatchStep(h[i], configOid, destination, batch, keys, attempts, now).Ok?
    requires h[i + 1] == ClaimBatchStep(h[i], configOid, destination, batch, keys, attempts, now).value.ledger
    requires key in ClaimBatchStep(h[i], configOid, destination, batch, keys, attempts, now).value.claimed
    ensures var again := ClaimBatchStep(h[j], configOid, destination, batch, keys, attempts, later);
            again.Ok? ==>
              && key !in again.value.claimed && key in h[j].deliveries && key in again.value.ledger.deliveries
              && again.value.ledger.deliveries[key] == h[j].deliveries[key]
  {
    ClaimBatchIsExact(h[i], configOid, destination, batch, keys, attempts, now);
    HistoryExtends(h, relations, i + 1, j);
    assert RecordExtends(h[i + 1].deliveries[key], h[j].deliveries[key]);
    var ids := h[i + 1].deliveries[key].attemptIds;
    assert ids[|ids| - 1] == AttemptOf(attempts, key);
    if ClaimBatchStep(h[j], configOid, destination, batch, keys, attempts, later).Ok? {
      ClaimBatchIsExact(h[j], configOid, destination, batch, keys, attempts, later);
    }
  }

  // ------------------------------------------------------------------- the window

  /** Nothing can claim the destination at this instant, neither a batch nor a single attempt. */
  ghost predicate Fenced(l: Ledger, destination: string, at: Time) {
    && (forall oid, batch, keys, attempts :: ClaimBatchStep(l, oid, destination, batch, keys, attempts, at).Err?)
    && (forall oid, key, attempt :: key in l.deliveries && l.deliveries[key].destination == destination
          ==> ClaimStep(l, oid, key, attempt, at).Fails?)
  }

  /** The destination is off, leased or paced. */
  predicate Closed(l: Ledger, destination: string, at: Time) {
    var d := DestinationOf(l, destination);
    !d.active || at < d.lease.until || at < d.nextSendAt
  }

  lemma ClosedIsFenced(l: Ledger, destination: string, at: Time)
    requires Closed(l, destination, at)
    ensures Fenced(l, destination, at)
  {
    hide ClaimKeys;
  }

  /**
   * A landed claim opens a sending window of exactly one claim duration for every
   * record it claimed, and for as long nothing else can claim the destination.
   */
  lemma ClaimOpensWindow(l: Ledger, configOid: Oid, destination: string, batch: Id, keys: seq<Id>,
          attempts: map<Id, Id>, now: Time, key: Id, at: Time)
    requires destination in l.destinations && l.destinations[destination].name == destination
    requires ClaimBatchStep(l, configOid, destination, batch, keys, attempts, now).Ok?
    requires key in ClaimBatchStep(l, configOid, destination, batch, keys, attempts, now).value.claimed && now <= at
    ensures var after := ClaimBatchStep(l, configOid, destination, batch, keys, attempts, now).value.ledger;
            && (at < now + CLAIM_DURATION <==>
                CheckBatchSend(Some(after), configOid, destination, batch, key, AttemptOf(attempts, key), at) == None)
            && (at < now + CLAIM_DURATION ==> Fenced(after, destination, at))
  {
    hide ClaimKeys, DueKeys;
    ClaimBatchIsExact(l, configOid, destination, batch, keys, attempts, now);
    assert KeyDue(l, l.destinations[destination], key, now);
    if at < now + CLAIM_DURATION {
      ClosedIsFenced(ClaimBatchStep(l, configOid, destination, batch, keys, attempts, now).value.ledger, destination,
                     at);
    }
  }

  /**
   * A batch that records its receipts lets go of the destination, which then stays
   * closed to everyone for one more second and no longer.
   */
  lemma ReleasePacesDestination(l: Ledger, destination: string, batch: Id, receipts: map<Id, Receipt>, now: Time,
          at: Time)
    requires destination in l.destinations && l.destinations[destination].name == destination
    requires l.destinations[destination].active
    requires l.destinations[destination].lease.attemptId == batch && forall k :: k in receipts ==>
               receipts[k].attemptId != batch
    requires ResultsStep(l, destination, batch, receipts, now).Next?
    ensures var after := ResultsStep(l, destination, batch, receipts, now).ledger;
            (Closed(after, destination, at) <==> at < now + SECOND)
                && (at < now + SECOND ==> Fenced(after, destination, at))
  {
    var after := ResultsStep(l, destination, batch, receipts, now).ledger;
    assert !Held(l, destination, receipts);
    var d := after.destinations[destination];
    assert d.lease == NO_LEASE && d.nextSendAt == now + SECOND && d.active;
    if at < now + SECOND { ClosedIsFenced(after, destination, at); }
  }

  /** A renewal moves the end of the window, for the records the batch still holds and for no others. */
  lemma RenewalMovesWindow(l: Ledger, configOid: Oid, destination: string, batch: Id, attempts: map<Id, Id>,
          now: Time, key: Id, at: Time)
    requires destination in l.destinations && l.destinations[destination].name == destination
    requires RenewBatch(l, configOid, destination, batch, attempts, now).Next? && key in attempts && now <= at
    ensures var after := RenewBatch(l, configOid, destination, batch, attempts, now).ledger;
            CheckBatchSend(Some(after), configOid, destination, batch, key, attempts[key], at) == None
            <==> CheckBatchSend(Some(l), configOid, destination, batch, key, attempts[key], now) == None
                 && at < now + CLAIM_DURATION
  {
  }

  /** A failure sends its record to the back: not claimable for at least a minute, claimable again within a day. */
  lemma FailureBacksOff(l: Ledger, key: Id, attempt: Id, result: AttemptResult, now: Time, at: Time)
    requires ApplyResult(l, key, attempt, result, now).Next? && Settles(l.deliveries[key], attempt, result.code)
    requires result.code != Accepted && !TerminalFailure(l.deliveries[key].attempts, result.code)
    requires Routed(l.destinations, l.events, l.deliveries[key]) && l.deliveries[key].message.Some?
    requires l.destinations[l.deliveries[key].destination].name == l.deliveries[key].destination
    ensures var after := ApplyResult(l, key, attempt, result, now).ledger;
            var d := DestinationOf(after, l.deliveries[key].destination);
            && (at < now + MINUTE ==> !KeyDue(after, d, key, at))
            && (at >= now + 24 * HOUR ==> KeyDue(after, d, key, at))
  {
  }

  // ------------------------------------------------------------ in terms of the record

  /** The batch holds the live lease of an active destination. */
  predicate OwnsDestination(l: Ledger, destination: string, batch: Id, now: Time) {
    && destination in l.destinations && l.destinations[destination].active
    && l.destinations[destination].lease.attemptId == batch && now < l.destinations[destination].lease.until
  }

  /** The attempt holds the live lease of a claimed record its destination still wants, message and all. */
  predicate OwnsRecord(l: Ledger, destination: string, key: Id, attempt: Id, now: Time)
  {
    && key in l.deliveries && destination in l.destinations
    && var r, d := l.deliveries[key], l.destinations[destination];
       && r.status == Claimed && r.lease.attemptId == attempt && now < r.lease.until && r.message.Some?
       && r.generation == d.generation && r.eventId in l.events
       && SubKey(l.events[r.eventId].kind, l.events[r.eventId].request.kind) in d.subscriptions
  }

  /** Why a send is refused: the record alone is lost only while the batch still owns its destination. */
  lemma SendVerdicts(l: Ledger, configOid: Oid, destination: string, batch: Id, key: Id, attempt: Id, now: Time)
    requires now != 0
    ensures CheckBatchSend(Some(l), configOid, destination, batch, key, attempt, now)
            == if l.policy.configOid != configOid then Some(StaleRevision)
               else if !OwnsDestination(l, destination, batch, now) then Some(NotDue)
               else if !OwnsRecord(l, destination, key, attempt, now) then Some(ClaimLost)
               else None
  {
  }

  lemma NeverIsInvalid(l: Ledger, configOid: Oid, destination: string, batch: Id, key: Id, attempt: Id)
    ensures CheckBatchSend(Some(l), configOid, destination, batch, key, attempt, 0) == Some(InvalidState)
  {
  }

  /**
   * As long as one record of a batch may be sent, every other one is sent too or alone lost, so that the rest can go
   * on; once the batch has lost its lease, its destination or its revision no record of it is reported as lost alone.
   */
  lemma LostAloneExactly(l: Ledger, configOid: Oid, destination: string, batch: Id, key: Id, attempt: Id, now: Time)
    ensures CheckBatchSend(Some(l), configOid, destination, batch, key, attempt, now) in {None, Some(ClaimLost)} <==>
              now != 0 && l.policy.configOid == configOid && OwnsDestination(l, destination, batch, now)
    ensures CheckBatchSend(Some(l), configOid, destination, batch, key, attempt, now) == None ==>
              forall other, its ::
                CheckBatchSend(Some(l), configOid, destination, batch, other, its, now) in {None, Some(ClaimLost)}
  {
    hide CheckBatchSend, OwnsDestination, OwnsRecord;
    if now == 0 {
      NeverIsInvalid(l, configOid, destination, batch, key, attempt);
    } else {
      SendVerdicts(l, configOid, destination, batch, key, attempt, now);
      forall other, its
        ensures CheckBatchSend(Some(l), configOid, destination, batch, key, attempt, now) == None ==>
                  CheckBatchSend(Some(l), configOid, destination, batch, other, its, now) in {None, Some(ClaimLost)}
      {
        SendVerdicts(l, configOid, destination, batch, other, its, now);
      }
    }
  }

  /** When a record can be claimed: it is open, has its message, and neither it nor its destination has to wait. */
  predicate Free(l: Ledger, key: Id, now: Time)
    requires key in l.deliveries && l.deliveries[key].destination in l.destinations
  {
    var r := l.deliveries[key];
    var d := l.destinations[r.destination];
    && r.status !in {Delivered, Skipped} && r.message.Some? && r.nextAttemptAt <= now && r.lease.until <= now
    && d.lease.until <= now && d.nextSendAt <= now
  }

  predicate ProperAttempt(id: Id) {
    id != Plain("") && IdLength(id) <= 128
  }

  lemma OpenIsRouted(l: Ledger, key: Id)
    requires Inv(l) && key in l.deliveries
    ensures var r := l.deliveries[key];
            r.destination in l.destinations && r.eventId in l.events
            && l.destinations[r.destination].name == r.destination
    ensures var r := l.deliveries[key];
            r.status !in {Delivered, Skipped} ==>
              && l.destinations[r.destination].active && l.destinations[r.destination].generation == r.generation
              && EventKey(l.events[r.eventId]) in l.destinations[r.destination].subscriptions
  {
    assert GoodDelivery(key, l.deliveries[key], l.destinations, l.events);
    assert ValidDestination(l.deliveries[key].destination, l.destinations[l.deliveries[key].destination]);
  }

  lemma OneKeyClaimed(l: Ledger, d: Destination, n: string, key: Id, attempt: Id, now: Time)
    requires key in l.deliveries && l.deliveries[key].destination == n && attempt !in l.deliveries[key].attemptIds
    requires ProperAttempt(attempt)
    ensures ClaimKeys(l, d, n, [key], map[key := attempt], now)
            == Ok(if BatchKeyDue(l, d, l.deliveries[key], now)
                  then Claims(l.deliveries[key := ClaimedRecord(l.deliveries[key], attempt, now)], [key])
                  else Claims(l.deliveries, []))
  {
    hide BatchKeyDue, ClaimedRecord;
    var keys := [key];
    assert keys[..|keys| - 1] == [] && [] + keys == keys;
    assert ClaimKeys(l, d, n, [], map[key := attempt], now) == Ok(Claims(l.deliveries, []));
  }

  lemma DueIsFree(l: Ledger, key: Id, now: Time)
    requires Inv(l) && key in l.deliveries
    ensures l.deliveries[key].destination in l.destinations
    ensures var d := l.destinations[l.deliveries[key].destination];
            Free(l, key, now)
            <==> (BatchKeyDue(l, d, l.deliveries[key], now) && d.active && d.lease.until <= now && d.nextSendAt <= now)
  {
    OpenIsRouted(l, key);
  }

  /** On a good ledger a batch of one record is claimed exactly when the record is free; its lease is two minutes. */
  lemma FreeIsClaimed(l: Ledger, key: Id, batch: Id, attempt: Id, now: Time)
    requires Inv(l) && key in l.deliveries && ProperAttempt(batch) && ProperAttempt(attempt) && now != 0
    requires attempt !in l.deliveries[key].attemptIds
    ensures l.deliveries[key].destination in l.destinations
    ensures var n := l.deliveries[key].destination;
            var out := ClaimBatchStep(l, l.policy.configOid, n, batch, [key], map[key := attempt], now);
            && (out.Ok? <==> Free(l, key, now)) && (out.Err? ==> out.error == NotDue)
            && (out.Ok? ==>
                  var r, d := l.deliveries[key], l.destinations[n];
                  && out.value.claimed == [key]
                  && out.value.ledger == l.(
                       deliveries := l.deliveries[
                         key := r.(status := Claimed, lease := Lease(attempt, now + 120 * SECOND),
                                   attempts := r.attempts + 1, attemptIds := r.attemptIds + [attempt])],
                       destinations := l.destinations[
                         n := d.(lease := Lease(batch, now + 120 * SECOND), nextSendAt := now + SECOND)]))
  {
    hide Inv, Free, BatchKeyDue, ClaimKeys;
    OpenIsRouted(l, key);
    DueIsFree(l, key, now);
    OneKeyClaimed(l, l.destinations[l.deliveries[key].destination], l.deliveries[key].destination, key, attempt, now);
  }

  /** So is a single claim, which takes the destination for the same attempt. */
  lemma FreeIsClaimedAlone(l: Ledger, key: Id, attempt: Id, now: Time)
    requires Inv(l) && key in l.deliveries && ProperAttempt(attempt) && now != 0
    requires attempt !in l.deliveries[key].attemptIds
    ensures l.deliveries[key].destination in l.destinations
    ensures var n := l.deliveries[key].destination;
            var step := ClaimStep(l, l.policy.configOid, key, attempt, now);
            && (step.Next? <==> Free(l, key, now)) && (!step.Next? ==> step == Fails(NotDue))
            && (step.Next? ==>
                  var r, d := l.deliveries[key], l.destinations[n];
                  step.ledger == l.(
                    deliveries := l.deliveries[
                      key := r.(status := Claimed, attempts := r.attempts + 1, attemptIds := r.attemptIds + [attempt],
                                lease := Lease(attempt, now + 120 * SECOND))],
                    destinations := l.destinations[
                      n := d.(lease := Lease(attempt, now + 120 * SECOND), nextSendAt := now + SECOND)]))
  {
    OpenIsRouted(l, key);
  }

  /** A claim with an outdated revision, an improper identity or a key that is not the destination's is no claim. */
  lemma ClaimRefusals(l: Ledger, configOid: Oid, destination: string, batch: Id, keys: seq<Id>, attempts: map<Id, Id>,
          now: Time)
    ensures var out := ClaimBatchStep(l, configOid, destination, batch, keys, attempts, now);
            && (out == Err(StaleRevision) <==> l.policy.configOid != configOid)
            && (out.Err? ==> out.error in {StaleRevision, InvalidState, NotDue})
            && (l.policy.configOid == configOid && (!ProperAttempt(batch) || now == 0) ==> out == Err(InvalidState))
            && (out.Ok? ==> ProperAttempt(batch) && now != 0 && destination in l.destinations
                            && l.destinations[destination].active && l.destinations[destination].lease.until <= now
                            && l.destinations[destination].nextSendAt <= now
                            && forall k :: k in keys ==>
                                 && k in l.deliveries && l.deliveries[k].destination == destination
                                 && ProperAttempt(AttemptOf(attempts, k)))
  {
    hide ClaimKeys, DueKeys;
    if destination in l.destinations {
      ClaimKeysIsExact(l, l.destinations[destination], destination, keys, attempts, now);
      DueKeysFacts(l, l.destinations[destination], keys, now);
    }
  }

  /**
   * A batch renews exactly while it owns its destination, for two minutes more from now, and with it just the records
   * its attempts still hold.
   */
  lemma RenewsExactly(l: Ledger, configOid: Oid, destination: string, batch: Id, attempts: map<Id, Id>, now: Time)
    requires Inv(l) && now != 0
    ensures var step := RenewBatch(l, configOid, destination, batch, attempts, now);
            && (step.Next? <==> l.policy.configOid == configOid && OwnsDestination(l, destination, batch, now))
            && (!step.Next? ==> step == Fails(if l.policy.configOid != configOid then StaleRevision else NotDue))
            && (step.Next? ==>
                  var d := l.destinations[destination];
                  && step.ledger == l.(deliveries := step.ledger.deliveries, destinations := l.destinations[
                                         destination := d.(lease := Lease(batch, now + 120 * SECOND))])
                  && step.ledger.deliveries.Keys == l.deliveries.Keys
                  && forall k :: k in l.deliveries ==>
                       var r := l.deliveries[k];
                       step.ledger.deliveries[k]
                       == if k in attempts && r.status == Claimed && r.lease.attemptId == attempts[k]
                             && now < r.lease.until && r.generation == d.generation
                          then r.(lease := Lease(attempts[k], now + 120 * SECOND)) else r)
  {
    if destination in l.destinations { assert ValidDestination(destination, l.destinations[destination]); }
  }

  /** A single attempt renews exactly while it holds both its record and the destination. */
  lemma RenewsAloneExactly(l: Ledger, configOid: Oid, key: Id, attempt: Id, now: Time)
    requires Inv(l) && key in l.deliveries
    ensures l.deliveries[key].destination in l.destinations
    ensures var n := l.deliveries[key].destination;
            var r, d, step := l.deliveries[key], l.destinations[n], RenewClaim(l, configOid, key, attempt, now);
            && (step.Next? <==> l.policy.configOid == configOid && OwnsDestination(l, n, attempt, now)
                                && r.status == Claimed && r.lease.attemptId == attempt && now < r.lease.until)
            && (!step.Next? ==> step == Fails(if l.policy.configOid != configOid then StaleRevision else NotDue))
            && (step.Next? ==>
                  step.ledger == l.(
                    deliveries := l.deliveries[key := r.(lease := Lease(attempt, now + 120 * SECOND))],
                    destinations := l.destinations[n := d.(lease := Lease(attempt, now + 120 * SECOND))]))
  {
    OpenIsRouted(l, key);
  }
}
