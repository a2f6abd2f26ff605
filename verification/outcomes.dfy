/** What an attempt's result does to its record: when it is given up, how long it waits, and what is left as it was. */
module Outcomes {
  import opened Basics
  import opened Model
  import opened Codec
  import opened Reducer
  import opened Guard
  import opened Invariant
  import opened Admission
  import opened Operations
  import opened Claiming

  // ------------------------------------------------------------------- one result

  /** A result is refused exactly when it reports nothing the ledger could have been waiting for. */
  lemma RefusedExactly(l: Ledger, key: Id, attempt: Id, result: AttemptResult, now: Time)
    ensures ApplyResult(l, key, attempt, result, now) == Fails(InvalidState) <==>
              || key !in l.deliveries || attempt !in l.deliveries[key].attemptIds || now == 0
              || result.code in {NoOutcome, Retired, Abandoned}
    ensures !ApplyResult(l, key, attempt, result, now).Next? ==>
              ApplyResult(l, key, attempt, result, now) == Fails(InvalidState)
  {
    hide SettledRecord, Settles, Release;
  }

  /** The first acceptance of an attempt is final, however late it comes. */
  lemma AcceptanceIsFinal(l: Ledger, key: Id, attempt: Id, result: AttemptResult, now: Time)
    requires ApplyResult(l, key, attempt, result, now).Next?
    requires result.code == Accepted && l.deliveries[key].status != Delivered
    ensures var r, after := l.deliveries[key], ApplyResult(l, key, attempt, result, now).ledger.deliveries;
            after == l.deliveries[
              key := r.(status := Delivered, code := Accepted, acceptedAt := now, deliveredAt := now, lease := NO_LEASE,
                        lastStatus := if 100 <= result.status <= 599 then result.status else 0)]
  {
    hide Release;
  }

  /** Whatever comes after an acceptance, or fails without holding the record's lease, changes nothing at all. */
  lemma LateFailuresChangeNothing(l: Ledger, key: Id, attempt: Id, result: AttemptResult, now: Time)
    requires ApplyResult(l, key, attempt, result, now).Next?
    requires || l.deliveries[key].status == Delivered
             || (result.code != Accepted
                 && (l.deliveries[key].status == Skipped || l.deliveries[key].lease.attemptId != attempt))
    ensures ApplyResult(l, key, attempt, result, now).ledger == l
  {
  }

  /** A failed attempt of the record's lease holder. */
  predicate HolderFails(l: Ledger, key: Id, attempt: Id, result: AttemptResult, now: Time) {
    && ApplyResult(l, key, attempt, result, now).Next? && result.code != Accepted
    && l.deliveries[key].status !in {Delivered, Skipped} && l.deliveries[key].lease.attemptId == attempt
  }

  /**
   * A record is given up exactly when its payload is too large, or when its 24th or a later attempt fails in a way that
   * trying again cannot help; otherwise it is to be retried. Either way it keeps why, and lets go of its lease.
   */
  lemma GivesUpExactly(l: Ledger, key: Id, attempt: Id, result: AttemptResult, now: Time)
    requires HolderFails(l, key, attempt, result, now)
    ensures var r := l.deliveries[key];
            var after := ApplyResult(l, key, attempt, result, now).ledger.deliveries;
            && key in after && after == l.deliveries[key := after[key]]
            && (after[key].status == Skipped <==>
                  || result.code == PayloadTooLarge
                  || (r.attempts >= 24 && result.code !in {Network, RateLimited, Service, Canceled}))
            && (after[key].status == Skipped ==>
                  && after[key].code == (if result.code == PayloadTooLarge then PayloadTooLarge else Abandoned)
                  && after[key].nextAttemptAt == r.nextAttemptAt)
            && (after[key].status != Skipped ==>
                  && after[key].status == Retryable && after[key].code == result.code
                  && after[key].nextAttemptAt == now + RetryDelay(r.attempts, result))
            && after[key].lastStatus == (if 100 <= result.status <= 599 then result.status else 0)
            && after[key] == r.(status := after[key].status, code := after[key].code, lease := NO_LEASE,
                                nextAttemptAt := after[key].nextAttemptAt, lastStatus := after[key].lastStatus)
  {
    hide Release, RetryDelay;
  }

  /** A settling result frees the destination exactly when it comes from the single attempt that holds it. */
  lemma ResultFreesDestination(l: Ledger, key: Id, attempt: Id, result: AttemptResult, now: Time)
    requires Inv(l) && ApplyResult(l, key, attempt, result, now).Next?
    ensures var r, after := l.deliveries[key], ApplyResult(l, key, attempt, result, now).ledger;
            var settles := r.status != Delivered
                           && (result.code == Accepted || (r.status != Skipped && r.lease.attemptId == attempt));
            && r.destination in l.destinations
            && after.destinations
               == (if settles && l.destinations[r.destination].lease.attemptId == attempt
                   then l.destinations[r.destination := l.destinations[r.destination].(lease := NO_LEASE)]
                   else l.destinations)
            && after == l.(deliveries := after.deliveries, destinations := after.destinations)
  {
    hide SettledRecord;
    assert GoodDelivery(key, l.deliveries[key], l.destinations, l.events);
    assert ValidDestination(l.deliveries[key].destination, l.destinations[l.deliveries[key].destination]);
  }

  // ------------------------------------------------------------- a batch's receipts

  /** Receipts are refused together, exactly when one of them would be alone, or is not the destination's. */
  lemma ReceiptsRefusedExactly(l: Ledger, destination: string, batch: Id, receipts: map<Id, Receipt>, now: Time)
    ensures var step := ResultsStep(l, destination, batch, receipts, now);
            && (step.Next? <==>
                  && batch != Plain("") && now != 0
                  && forall k :: k in receipts ==>
                       && k in l.deliveries && l.deliveries[k].destination == destination
                       && ApplyResult(l, k, receipts[k].attemptId, receipts[k].result, now).Next?)
            && (!step.Next? ==> step == Fails(InvalidState))
  {
    hide SettleAll, ReleaseBatch, ApplyResult, BadReceipt, AttemptOutcome;
    forall k | k in receipts
      ensures now != 0 ==>
                (!BadReceipt(l, destination, k, receipts[k], now) <==>
                   && k in l.deliveries && l.deliveries[k].destination == destination
                   && ApplyResult(l, k, receipts[k].attemptId, receipts[k].result, now).Next?)
    {
      RefusedExactly(l, k, receipts[k].attemptId, receipts[k].result, now);
      BadInFields(l, destination, k, receipts[k], now);
    }
  }

  lemma BadInFields(l: Ledger, destination: string, key: Id, receipt: Receipt, now: Time)
    ensures BadReceipt(l, destination, key, receipt, now) <==>
              || key !in l.deliveries || l.deliveries[key].destination != destination
              || receipt.attemptId !in l.deliveries[key].attemptIds
              || receipt.result.code in {NoOutcome, Retired, Abandoned} || now == 0
  {
  }

  /** Recorded receipts do to each record what its own receipt does alone, and nothing to any other. */
  lemma ReceiptsActAlone(l: Ledger, destination: string, batch: Id, receipts: map<Id, Receipt>, now: Time, key: Id)
    requires ResultsStep(l, destination, batch, receipts, now).Next?
    ensures var after := ResultsStep(l, destination, batch, receipts, now).ledger.deliveries;
            && after.Keys == l.deliveries.Keys
            && (key in receipts ==>
                  var alone := ApplyResult(l, key, receipts[key].attemptId, receipts[key].result, now);
                  && key in after && alone.Next? && key in alone.ledger.deliveries
                  && after[key] == alone.ledger.deliveries[key])
            && (key in l.deliveries && key !in receipts ==> after[key] == l.deliveries[key])
  {
    hide SettledRecord, Settles, BadReceipt, AttemptOutcome, Held;
    ReceiptsRefusedExactly(l, destination, batch, receipts, now);
  }

  /** The destination is let go by the batch that holds it, to rest for a second, or by the single attempt that does. */
  lemma ReceiptsFreeDestination(l: Ledger, destination: string, batch: Id, receipts: map<Id, Receipt>, now: Time)
    requires Inv(l) && destination in l.destinations && ResultsStep(l, destination, batch, receipts, now).Next?
    requires forall k :: k in receipts ==> receipts[k].attemptId != batch
    ensures var d, after := l.destinations[destination], ResultsStep(l, destination, batch, receipts, now).ledger;
            && (d.lease.attemptId == batch ==>
                  after.destinations == l.destinations[
                    destination := d.(lease := NO_LEASE, nextSendAt := now + SECOND)])
            && (d.lease.attemptId != batch ==>
                  after.destinations == l.destinations || after.destinations == l.destinations[
                    destination := d.(lease := NO_LEASE)])
            && after == l.(deliveries := after.deliveries, destinations := after.destinations)
  {
    hide SettledRecord, ReceiptSettles, BadReceipt, Inv;
    NamedDestination(l, destination);
  }

  lemma NamedDestination(l: Ledger, destination: string)
    requires Inv(l) && destination in l.destinations
    ensures l.destinations[destination].name == destination
  {
    assert ValidDestination(destination, l.destinations[destination]);
  }

  // ------------------------------------------------------------------- the wait

  /** Unasked, failures that may pass wait a minute, and then twice as long each time, up to an hour. */
  lemma BackoffDoubles(attempts: int, result: AttemptResult)
    requires result.code in {Network, RateLimited, Service, Canceled} && result.retryAfter <= 0
    ensures attempts <= 1 ==> RetryDelay(attempts, result) == 60 * SECOND
    ensures attempts >= 1 ==>
              RetryDelay(attempts + 1, result) == Min(2 * RetryDelay(attempts, result), 3600 * SECOND)
  {
    assert Power2(1) == 2 && Power2(2) == 4 && Power2(3) == 8;
    assert Power2(4) == 16 && Power2(5) == 32 && Power2(6) == 64;
  }

  /** Any other failure waits an hour. */
  lemma OthersWaitAnHour(attempts: int, result: AttemptResult)
    requires result.code !in {Network, RateLimited, Service, Canceled} && result.retryAfter <= 0
    ensures RetryDelay(attempts, result) == 3600 * SECOND
  {
    hide Power2;
  }

  /** A longer wait the receiver asks for is honoured, up to a day. */
  lemma RetryAfterIsHonoured(attempts: int, result: AttemptResult)
    ensures RetryDelay(attempts, result)
            == Max(RetryDelay(attempts, result.(retryAfter := 0)), Min(result.retryAfter, 86400 * SECOND))
  {
    hide Power2;
  }

  // -------------------------------------------------------------------- whole runs

  predicate Leased(r: Record) {
    r.lease.attemptId != NO_ID
  }

  /** The holder of an open record's lease failed in a way that trying again cannot help. */
  predicate FailsForGood(before: Record, after: Record) {
    && before.status !in {Delivered, Skipped} && Leased(before) && !Leased(after)
    && after.status in {Retryable, Skipped}
    && after.code !in {Network, RateLimited, Service, Canceled, Retired}
  }

  /** What every step of a run leaves of a record's chances. */
  predicate Chances(before: Record, after: Record) {
    && (Terminal(before) ==> Terminal(after)) && before.attempts <= after.attempts
    && (Leased(after) && !Leased(before) ==> before.attempts < after.attempts)
    && (FailsForGood(before, after) ==>
          after.attempts == before.attempts && (before.attempts >= 24 ==> Terminal(after)))
  }

  lemma ClaimTakesChance(r: Record, attempt: Id, now: Time)
    requires attempt != NO_ID && !Terminal(r)
    ensures Chances(r, ClaimedRecord(r, attempt, now))
  {
  }

  lemma ResultTakesChance(r: Record, attempt: Id, result: AttemptResult, now: Time)
    requires ValidRecord(r) && attempt in r.attemptIds && Settles(r, attempt, result.code)
    ensures Chances(r, SettledRecord(r, result, now))
  {
    hide RetryDelay;
  }

  lemma BatchClaimTakesChance(l: Ledger, op: Op, key: Id)
    requires op.ClaimBatchOp? && StepOf(l, op).Next? && key in l.deliveries
    ensures key in StepOf(l, op).ledger.deliveries
    ensures Chances(l.deliveries[key], StepOf(l, op).ledger.deliveries[key])
  {
    hide ClaimKeys, DueKeys, ClaimedRecord;
    var d := l.destinations[op.destination];
    ClaimBatchIsExact(l, op.configOid, op.destination, op.batch, op.keys, op.attempts, op.now);
    ClaimKeysIsExact(l, d, op.destination, op.keys, op.attempts, op.now);
    if key in ClaimBatchStep(l, op.configOid, op.destination, op.batch, op.keys, op.attempts, op.now).value.claimed {
      assert Claimable(l, d, op.destination, key, op.attempts, op.now);
      ClaimTakesChance(l.deliveries[key], AttemptOf(op.attempts, key), op.now);
    }
  }

  lemma GoodReceipt(l: Ledger, destination: string, key: Id, receipt: Receipt, now: Time)
    requires !BadReceipt(l, destination, key, receipt, now)
    ensures key in l.deliveries && receipt.attemptId in l.deliveries[key].attemptIds
  {
  }

  lemma ReceiptsTakeChance(l: Ledger, op: Op, key: Id)
    requires Inv(l) && op.ResultsOp? && StepOf(l, op).Next? && key in l.deliveries
    ensures key in StepOf(l, op).ledger.deliveries
    ensures Chances(l.deliveries[key], StepOf(l, op).ledger.deliveries[key])
  {
    hide SettledRecord, Held, Settles, BadReceipt;
    assert GoodDelivery(key, l.deliveries[key], l.destinations, l.events);
    if key in op.receipts && ReceiptSettles(l, key, op.receipts[key]) {
      GoodReceipt(l, op.destination, key, op.receipts[key], op.now);
      ResultTakesChance(l.deliveries[key], op.receipts[key].attemptId, op.receipts[key].result, op.now);
    }
  }

  lemma AcceptanceTakesChance(l: Ledger, op: Op, key: Id)
    requires !Quiet(op) && StepOf(l, op).Next? && key in l.deliveries
    ensures key in StepOf(l, op).ledger.deliveries
    ensures Chances(l.deliveries[key], StepOf(l, op).ledger.deliveries[key])
  {
    hide AcceptDestinations, DeactivateUnseen, Routed, CheckRevision;
  }

  lemma SingleClaimTakesChance(l: Ledger, op: Op, key: Id)
    requires op.ClaimOp? && StepOf(l, op).Next? && key in l.deliveries
    ensures key in StepOf(l, op).ledger.deliveries
    ensures Chances(l.deliveries[key], StepOf(l, op).ledger.deliveries[key])
  {
    hide ClaimedRecord, Routed;
    if op.key == key { ClaimTakesChance(l.deliveries[key], op.attempt, op.now); }
  }

  lemma SingleResultTakesChance(l: Ledger, op: Op, key: Id)
    requires Inv(l) && op.ResultOp? && StepOf(l, op).Next? && key in l.deliveries
    ensures key in StepOf(l, op).ledger.deliveries
    ensures Chances(l.deliveries[key], StepOf(l, op).ledger.deliveries[key])
  {
    hide SettledRecord, Settles, Release;
    assert GoodDelivery(key, l.deliveries[key], l.destinations, l.events);
    if op.key == key && Settles(l.deliveries[key], op.attempt, op.result.code) {
      ResultTakesChance(l.deliveries[key], op.attempt, op.result, op.now);
    }
  }

  /** What neither claims nor settles takes no chance. */
  lemma OthersTakeNoChance(l: Ledger, op: Op, key: Id)
    requires op.AdmitOp? || op.SaveOp? || Renewal(op) || op.RememberOp? || op.ScanOp?
    requires StepOf(l, op).Next? && key in l.deliveries
    ensures key in StepOf(l, op).ledger.deliveries
    ensures Chances(l.deliveries[key], StepOf(l, op).ledger.deliveries[key])
  {
    hide EligibleNames;
  }

  lemma StepTakesChance(l: Ledger, next: Ledger, op: Op, key: Id)
    requires Inv(l) && RunStep(l, next, op) && key in l.deliveries
    ensures key in next.deliveries && Chances(l.deliveries[key], next.deliveries[key])
  {
    hide StepOf, WellFormed, NamesOnce, Inv, Chances;
    if !Quiet(op) {
      AcceptanceTakesChance(l, op, key);
    } else if op.ClaimBatchOp? {
      BatchClaimTakesChance(l, op, key);
    } else if op.ResultsOp? {
      ReceiptsTakeChance(l, op, key);
    } else if op.ClaimOp? {
      SingleClaimTakesChance(l, op, key);
    } else if op.ResultOp? {
      SingleResultTakesChance(l, op, key);
    } else {
      OthersTakeNoChance(l, op, key);
    }
  }

  /** How often the record failed for good in the first j steps of a run. */
  ghost function Failures(run: seq<Ledger>, key: Id, j: nat): nat
    requires j < |run|
  {
    if j == 0 then 0
    else Failures(run, key, j - 1)
         + if key in run[j - 1].deliveries && key in run[j].deliveries
              && FailsForGood(run[j - 1].deliveries[key], run[j].deliveries[key]) then 1 else 0
  }

  /** Every failure costs an attempt, and at 24 attempts the next one is the last. */
  lemma {:induction false} FailuresCostAttempts(run: seq<Ledger>, ops: seq<Op>, key: Id, j: nat)
    requires StepsRun(run, ops) && j < |run|
    ensures Failures(run, key, j) <= 24
    ensures key !in run[j].deliveries ==> Failures(run, key, j) == 0
    ensures key in run[j].deliveries ==>
              var r := run[j].deliveries[key];
              && Failures(run, key, j) + (if Leased(r) then 1 else 0) <= r.attempts
              && (!Terminal(r) ==> Failures(run, key, j) <= 23)
  {
    hide RunStep, Inv;
    if j == 0 {
      LeaseIsAnAttempt(run[0], key);
    } else {
      var last := j - 1;
      FailuresCostAttempts(run, ops, key, last);
      RunIsGood(run, ops, last);
      RunIsGood(run, ops, j);
      assert RunStep(run[last], run[last + 1], ops[last]);
      LeaseIsAnAttempt(run[j], key);
      if key in run[last].deliveries { StepTakesChance(run[last], run[j], ops[last], key); }
    }
  }

  lemma LeaseIsAnAttempt(l: Ledger, key: Id)
    requires Inv(l)
    ensures key in l.deliveries ==>
              l.deliveries[key].attempts >= if Leased(l.deliveries[key]) then 1 else 0
  {
    if key in l.deliveries { assert GoodDelivery(key, l.deliveries[key], l.destinations, l.events); }
  }

  /** However a run goes on, no record fails for good more than 24 times, and by then it has been given up. */
  lemma FailsAtMost24Times(run: seq<Ledger>, ops: seq<Op>, key: Id, j: nat)
    requires StepsRun(run, ops) && j < |run|
    ensures Failures(run, key, j) <= 24
    ensures Failures(run, key, j) == 24 ==>
              key in run[j].deliveries && run[j].deliveries[key].status in {Delivered, Skipped}
  {
    hide StepsRun;
    FailuresCostAttempts(run, ops, key, j);
  }
}
