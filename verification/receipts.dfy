/** Receipts: recorded in any order, more than once, late, and never lost. */
module Receipts {
  import opened Basics
  import opened Model
  import opened Codec
  import opened Reducer
  import opened Guard
  import opened Invariant
  import opened Agreement

  // ---------------------------------------------------------- order does not matter

  /** The source's loop: one receipt after the other, on the ledger the last one left. */
  function FoldReceipts(l: Ledger, destination: string, keys: seq<Id>, receipts: map<Id, Receipt>, now: Time): Step
    requires forall k :: k in keys ==> k in receipts
  {
    if keys == [] then Next(l)
    else
      var key := keys[|keys| - 1];
      var before := FoldReceipts(l, destination, keys[..|keys| - 1], receipts, now);
      if !before.Next? then before
      else if key !in before.ledger.deliveries || before.ledger.deliveries[key].destination != destination then
        Fails(InvalidState)
      else ApplyResult(before.ledger, key, receipts[key].attemptId, receipts[key].result, now)
  }

  function Restrict(receipts: map<Id, Receipt>, keys: seq<Id>): map<Id, Receipt> {
    map k | k in receipts && k in keys :: receipts[k]
  }

  /** The two facts about a valid ledger that the order of receipts rests on. */
  ghost predicate Named(l: Ledger, destination: string) {
    && destination in l.destinations && l.destinations[destination].name == destination
    && forall k {:trigger l.deliveries[k]} :: k in l.deliveries ==> NO_ID !in l.deliveries[k].attemptIds
  }

  lemma GoodLedgerIsNamed(l: Ledger, destination: string)
    requires Inv(l) && destination in l.destinations
    ensures Named(l, destination)
  {
    assert ValidDestination(destination, l.destinations[destination]);
    forall k | k in l.deliveries ensures NO_ID !in l.deliveries[k].attemptIds {
      assert GoodDelivery(k, l.deliveries[k], l.destinations, l.events);
    }
  }

  lemma HeldByOneMore(l: Ledger, destination: string, settled: map<Id, Receipt>, key: Id, receipt: Receipt)
    requires key !in settled
    ensures Held(l, destination, settled[key := receipt])
            <==> Held(l, destination, settled)
                 || (ReceiptSettles(l, key, receipt)
                     && receipt.attemptId == DestinationOf(l, destination).lease.attemptId)
  {
    var all := settled[key := receipt];
    if Held(l, destination, settled) {
      var k :| k in settled && ReceiptSettles(l, k, settled[k])
          && settled[k].attemptId == DestinationOf(l, destination).lease.attemptId;
      assert k in all && all[k] == settled[k];
    }
    if ReceiptSettles(l, key, receipt) && receipt.attemptId == DestinationOf(l, destination).lease.attemptId {
      assert key in all && all[key] == receipt;
    }
  }

  /** One more receipt on top of the ones already settled. */
  lemma OneMoreRecord(l: Ledger, destination: string, settled: map<Id, Receipt>, key: Id, receipt: Receipt, now: Time)
    requires key !in settled && key in l.deliveries
    ensures var before := SettleAll(l, destination, settled, now).deliveries;
            SettleAll(l, destination, settled[key := receipt], now).deliveries
            == if ReceiptSettles(l, key, receipt)
               then before[key := SettledRecord(l.deliveries[key], receipt.result, now)]
               else before
  {
    hide Held, SettledRecord, ReceiptSettles;
  }

  lemma SettleOneMore(l: Ledger, destination: string, settled: map<Id, Receipt>, key: Id, receipt: Receipt, now: Time)
    requires Named(l, destination) && now != NEVER
    requires key !in settled && !BadReceipt(l, destination, key, receipt, now)
    ensures ApplyResult(SettleAll(l, destination, settled, now), key, receipt.attemptId, receipt.result, now)
            == Next(SettleAll(l, destination, settled[key := receipt], now))
  {
    hide SettledRecord, AttemptOutcome;
    assert receipt.attemptId != NO_ID;
    HeldByOneMore(l, destination, settled, key, receipt);
    OneMoreRecord(l, destination, settled, key, receipt, now);
  }

  /** The same deliveries, of the same destinations and with the same attempts. */
  ghost predicate SameAttempts(before: map<Id, Record>, after: map<Id, Record>) {
    after.Keys == before.Keys
    && forall k {:trigger after[k]} :: k in after ==>
         after[k].destination == before[k].destination && after[k].attemptIds == before[k].attemptIds
  }

  lemma AppliedKeepsAttempts(l: Ledger, destination: string, key: Id, receipt: Receipt, now: Time)
    requires key in l.deliveries && l.deliveries[key].destination == destination
    requires ApplyResult(l, key, receipt.attemptId, receipt.result, now).Next?
    ensures SameAttempts(l.deliveries, ApplyResult(l, key, receipt.attemptId, receipt.result, now).ledger.deliveries)
    ensures !BadReceipt(l, destination, key, receipt, now)
  {
    hide Settles;
  }

  lemma BadStaysBad(l: Ledger, other: Ledger, destination: string, key: Id, receipt: Receipt, now: Time)
    requires SameAttempts(l.deliveries, other.deliveries)
    ensures BadReceipt(l, destination, key, receipt, now) <==> BadReceipt(other, destination, key, receipt, now)
  {
  }

  lemma {:induction false} BadReceiptStopsFold(l: Ledger, destination: string, keys: seq<Id>,
          receipts: map<Id, Receipt>, now: Time)
    requires forall k :: k in keys ==> k in receipts
    requires FoldReceipts(l, destination, keys, receipts, now).Next?
    ensures SameAttempts(l.deliveries, FoldReceipts(l, destination, keys, receipts, now).ledger.deliveries)
    ensures forall k :: k in keys ==> !BadReceipt(l, destination, k, receipts[k], now)
  {
    hide ApplyResult, BadReceipt;
    if keys != [] {
      var n := |keys| - 1;
      var prefix, key := keys[..n], keys[n];
      BadReceiptStopsFold(l, destination, prefix, receipts, now);
      var before := FoldReceipts(l, destination, prefix, receipts, now).ledger;
      AppliedKeepsAttempts(before, destination, key, receipts[key], now);
      BadStaysBad(l, before, destination, key, receipts[key], now);
      assert forall k :: k in keys ==> k in prefix || k == key;
    }
  }

  predicate AnyBad(l: Ledger, destination: string, keys: seq<Id>, receipts: map<Id, Receipt>, now: Time)
    requires forall k :: k in keys ==> k in receipts
  {
    exists k :: k in keys && BadReceipt(l, destination, k, receipts[k], now)
  }

  lemma SettledKnows(l: Ledger, destination: string, settled: map<Id, Receipt>, key: Id, receipt: Receipt, now: Time)
    requires !BadReceipt(l, destination, key, receipt, now)
    ensures key in l.deliveries && key in SettleAll(l, destination, settled, now).deliveries
    ensures SettleAll(l, destination, settled, now).deliveries[key].destination == destination
  {
    hide Held, ReceiptSettles;
  }

  lemma {:induction false} GoodReceiptsFold(l: Ledger, destination: string, keys: seq<Id>, receipts: map<Id, Receipt>,
          now: Time)
    requires Named(l, destination) && now != NEVER && Distinct(keys)
    requires forall k :: k in keys ==> k in receipts
    requires !AnyBad(l, destination, keys, receipts, now)
    ensures FoldReceipts(l, destination, keys, receipts, now)
            == Next(SettleAll(l, destination, Restrict(receipts, keys), now))
  {
    hide SettleAll, ApplyResult, BadReceipt, Named;
    if keys == [] {
      assert Restrict(receipts, keys) == map[];
      NoReceiptsSettleNothing(l, destination, now);
    } else {
      var n := |keys| - 1;
      var prefix, key := keys[..n], keys[n];
      assert key in keys && forall k :: k in prefix ==> k in keys;
      assert !BadReceipt(l, destination, key, receipts[key], now);
      GoodReceiptsFold(l, destination, prefix, receipts, now);
      RestrictGrows(receipts, keys);
      SettledKnows(l, destination, Restrict(receipts, prefix), key, receipts[key], now);
      SettleOneMore(l, destination, Restrict(receipts, prefix), key, receipts[key], now);
    }
  }

  lemma RestrictGrows(receipts: map<Id, Receipt>, keys: seq<Id>)
    requires keys != [] && Distinct(keys) && keys[|keys| - 1] in receipts
    ensures var key := keys[|keys| - 1];
            var prefix := Restrict(receipts, keys[..|keys| - 1]);
            key !in prefix && Restrict(receipts, keys) == prefix[key := receipts[key]]
  {
    var n := |keys| - 1;
    assert forall k :: k in keys <==> k in keys[..n] || k == keys[n];
    assert keys[n] !in keys[..n];
  }

  lemma {:induction false} FoldRefusal(l: Ledger, destination: string, keys: seq<Id>, receipts: map<Id, Receipt>,
          now: Time)
    requires forall k :: k in keys ==> k in receipts
    ensures FoldReceipts(l, destination, keys, receipts, now).Next?
              || FoldReceipts(l, destination, keys, receipts, now) == Fails(InvalidState)
  {
    if keys != [] { FoldRefusal(l, destination, keys[..|keys| - 1], receipts, now); }
  }

  /**
   * Recording receipts one by one gives the same ledger in every order: the one
   * in which each receipt acted on its own record, or the same refusal.
   */
  lemma ReceiptsCommute(l: Ledger, destination: string, keys: seq<Id>, receipts: map<Id, Receipt>, now: Time)
    requires Named(l, destination) && now != NEVER && Distinct(keys)
    requires forall k :: k in keys ==> k in receipts
    ensures FoldReceipts(l, destination, keys, receipts, now)
            == if AnyBad(l, destination, keys, receipts, now) then Fails(InvalidState)
               else Next(SettleAll(l, destination, Restrict(receipts, keys), now))
  {
    if AnyBad(l, destination, keys, receipts, now) {
      FoldRefusal(l, destination, keys, receipts, now);
      if FoldReceipts(l, destination, keys, receipts, now).Next? {
        BadReceiptStopsFold(l, destination, keys, receipts, now);
      }
    } else {
      GoodReceiptsFold(l, destination, keys, receipts, now);
    }
  }

  // --------------------------------------------------------- once more changes nothing

  lemma SettledRecordSettlesNoMore(r: Record, receipt: Receipt, now: Time)
    requires receipt.attemptId != NO_ID && Settles(r, receipt.attemptId, receipt.result.code)
    ensures !Settles(SettledRecord(r, receipt.result, now), receipt.attemptId, receipt.result.code)
  {
  }

  lemma NothingLeftToSettle(l: Ledger, destination: string, receipts: map<Id, Receipt>, now: Time)
    requires forall k :: k in receipts ==> !ReceiptSettles(l, k, receipts[k])
    ensures SettleAll(l, destination, receipts, now) == l
  {
  }

  lemma SettledReceiptsSettleNoMore(l: Ledger, destination: string, receipts: map<Id, Receipt>, now: Time, later: Time)
    requires Named(l, destination) && later != NEVER
    requires forall k :: k in receipts ==> !BadReceipt(l, destination, k, receipts[k], now)
    ensures var settled := SettleAll(l, destination, receipts, now);
            forall k :: k in receipts ==>
              !ReceiptSettles(settled, k, receipts[k]) && !BadReceipt(settled, destination, k, receipts[k], later)
  {
    var settled := SettleAll(l, destination, receipts, now);
    forall k | k in receipts
      ensures !ReceiptSettles(settled, k, receipts[k]) && !BadReceipt(settled, destination, k, receipts[k], later)
    {
      assert !BadReceipt(l, destination, k, receipts[k], now);
      if ReceiptSettles(l, k, receipts[k]) { SettledRecordSettlesNoMore(l.deliveries[k], receipts[k], now); }
    }
  }

  lemma ReleaseTwice(l: Ledger, destination: string, batch: Id, now: Time, later: Time)
    requires destination in l.destinations && l.destinations[destination].name == destination && batch != NO_ID
    ensures var once := ReleaseBatch(l, destination, batch, now);
            once.deliveries == l.deliveries && ReleaseBatch(once, destination, batch, later) == once
  {
  }

  lemma SameReceipts(l: Ledger, other: Ledger, destination: string, receipts: map<Id, Receipt>, now: Time)
    requires other.deliveries == l.deliveries
    requires forall k :: k in receipts ==>
               !ReceiptSettles(l, k, receipts[k]) && !BadReceipt(l, destination, k, receipts[k], now)
    ensures forall k :: k in receipts ==>
              !ReceiptSettles(other, k, receipts[k]) && !BadReceipt(other, destination, k, receipts[k], now)
  {
    forall k | k in receipts
      ensures !ReceiptSettles(other, k, receipts[k]) && !BadReceipt(other, destination, k, receipts[k], now)
    {
      assert !ReceiptSettles(l, k, receipts[k]) && !BadReceipt(l, destination, k, receipts[k], now);
    }
  }

  /** Recording a batch's receipts again, at any later time, changes nothing. */
  lemma RecordResultsIsIdempotent(l: Ledger, destination: string, batch: Id, receipts: map<Id, Receipt>, now: Time,
          later: Time)
    requires Named(l, destination) && later != NEVER && ResultsStep(l, destination, batch, receipts, now).Next?
    ensures var once := ResultsStep(l, destination, batch, receipts, now).ledger;
            ResultsStep(once, destination, batch, receipts, later) == Next(once)
  {
    hide ReleaseBatch, ReceiptSettles, BadReceipt;
    var settled := SettleAll(l, destination, receipts, now);
    var once := ReleaseBatch(settled, destination, batch, now);
    SettledReceiptsSettleNoMore(l, destination, receipts, now, later);
    SettledIsNamed(l, destination, receipts, now);
    ReleaseTwice(settled, destination, batch, now, later);
    SameReceipts(settled, once, destination, receipts, later);
    NothingLeftToSettle(once, destination, receipts, later);
  }

  lemma SettledIsNamed(l: Ledger, destination: string, receipts: map<Id, Receipt>, now: Time)
    requires Named(l, destination)
    ensures var settled := SettleAll(l, destination, receipts, now);
            destination in settled.destinations && settled.destinations[destination].name == destination
  {
    hide Held;
  }

  // ------------------------------------------------------------------ acceptance wins

  datatype Arrival = Arrival(receipt: Receipt, at: Time)

  /** Receipts for one record arriving one after the other. */
  function FoldArrivals(l: Ledger, key: Id, arrivals: seq<Arrival>): Step {
    if arrivals == [] then Next(l)
    else
      var last := arrivals[|arrivals| - 1];
      var before := FoldArrivals(l, key, arrivals[..|arrivals| - 1]);
      if before.Next?
      then ApplyResult(before.ledger, key, last.receipt.attemptId, last.receipt.result, last.at)
      else before
  }

  /**
   * However failures, cancellations and acceptances interleave, the record ends delivered exactly when one was an
   * acceptance.
   */
  lemma {:induction false} AcceptanceWins(l: Ledger, key: Id, arrivals: seq<Arrival>)
    requires key in l.deliveries && FoldArrivals(l, key, arrivals).Next?
    ensures key in FoldArrivals(l, key, arrivals).ledger.deliveries
    ensures FoldArrivals(l, key, arrivals).ledger.deliveries[key].status == Delivered
            <==> l.deliveries[key].status == Delivered
                 || exists i :: 0 <= i < |arrivals| && arrivals[i].receipt.result.code == Accepted
  {
    if arrivals != [] {
      var prefix := arrivals[..|arrivals| - 1];
      AcceptanceWins(l, key, prefix);
      assert forall i :: 0 <= i < |prefix| ==> prefix[i] == arrivals[i];
    }
  }

  /** Outages and cancellations alone never give a delivery up, however often they recur. */
  lemma {:induction false} TransientFailuresNeverGiveUp(l: Ledger, key: Id, arrivals: seq<Arrival>)
    requires key in l.deliveries && FoldArrivals(l, key, arrivals).Next?
    requires forall i :: 0 <= i < |arrivals| ==> Transient(arrivals[i].receipt.result.code)
    ensures key in FoldArrivals(l, key, arrivals).ledger.deliveries
    ensures Terminal(FoldArrivals(l, key, arrivals).ledger.deliveries[key]) <==> Terminal(l.deliveries[key])
  {
    if arrivals != [] {
      var prefix := arrivals[..|arrivals| - 1];
      assert forall i :: 0 <= i < |prefix| ==> prefix[i] == arrivals[i];
      TransientFailuresNeverGiveUp(l, key, prefix);
    }
  }

  // --------------------------------------------------------- receipts are never refused

  /** An attempt once claimed can be reported in every later ledger, whatever was committed in between. */
  lemma ClaimedStaysRecordable(h: seq<Ledger>, relations: seq<Relation>, i: nat, j: nat, key: Id, attempt: Id,
          result: AttemptResult, now: Time)
    requires History(h, relations) && i <= j < |h|
    requires Recordable(h[i], key, attempt) && AttemptOutcome(result.code) && now != NEVER
    ensures ApplyResult(h[j], key, attempt, result, now).Next?
    ensures result.code == Accepted ==>
              ApplyResult(h[j], key, attempt, result, now).ledger.deliveries[key].status == Delivered
  {
    HistoryExtends(h, relations, i, j);
    assert RecordExtends(h[i].deliveries[key], h[j].deliveries[key]);
  }

  /** Once a receipt is durable the record never changes again, and so is never sent again. */
  lemma DeliveredIsNeverSentAgain(h: seq<Ledger>, relations: seq<Relation>, i: nat, j: nat, key: Id,
          configOid: Oid, destination: string, batch: Id, attempt: Id, now: Time)
    requires History(h, relations) && i <= j < |h| && key in h[i].deliveries && h[i].deliveries[key].status == Delivered
    ensures key in h[j].deliveries && h[j].deliveries[key] == h[i].deliveries[key]
    ensures CheckBatchSend(Some(h[j]), configOid, destination, batch, key, attempt, now) != None
  {
    HistoryExtends(h, relations, i, j);
    assert RecordExtends(h[i].deliveries[key], h[j].deliveries[key]);
  }
}
