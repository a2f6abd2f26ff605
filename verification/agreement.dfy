/**
 * Every legitimate transition keeps the invariant and loses no evidence, so
 * the store's guard, which was written separately, never refuses one.
 */
module Agreement {
  import opened Basics
  import opened Text
  import opened Model
  import opened Codec
  import opened Reducer
  import opened Guard
  import opened Invariant

  // -------------------------------------------------------------------- messages

  lemma SavedRecordIsGood(r: Record, m: Message)
    requires GoodRecord(r) && r.message.None? && |m.title| <= 256 && ByteLen(m.body) <= 12 * 1024
    ensures GoodRecord(r.(message := Some(m))) <==> NoControl(m.title)
    ensures RecordExtends(r, r.(message := Some(m))) <==> r.status != Skipped
  {
    BytesBound(m.title, |m.title|);
  }

  /** A saved message is kept evidence exactly when its title is clean and the record was not retired without one. */
  lemma SaveMessagePreserves(l: Ledger, configOid: Oid, key: Id, m: Message)
    requires Inv(l) && SaveStep(l, configOid, key, m).Next?
    ensures Preserves(l, SaveStep(l, configOid, key, m).ledger)
            <==> (NoControl(m.title) && l.deliveries[key].status != Skipped)
  {
    var after := SaveStep(l, configOid, key, m).ledger;
    var r := l.deliveries[key];
    assert GoodDelivery(key, r, l.destinations, l.events);
    SavedRecordIsGood(r, m);
    if NoControl(m.title) && r.status != Skipped {
      ReplacedRecordFollows(l, key, r.(message := Some(m)));
      RecordsPreserve(l, after.deliveries);
    } else if NoControl(m.title) {
      assert !RecordExtends(l.deliveries[key], after.deliveries[key]);
      assert !DeliveriesKept(l, after);
    } else {
      assert !GoodDelivery(key, after.deliveries[key], after.destinations, after.events);
    }
  }

  lemma UncleanIsInvalid(l: Ledger, key: Id, m: Message)
    requires key in l.deliveries && l.deliveries[key].message == Some(m) && !NoControl(m.title)
    ensures Validate(l) != None
  {
    assert !ValidDelivery(key, l.deliveries[key], l.destinations, l.events);
  }

  /**
   * Of the messages the reducer saves, the store commits exactly those with a
   * clean title, on a record that was not retired without a message.
   */
  lemma SavedMessageCommits(l: Ledger, configOid: Oid, key: Id, m: Message)
    requires Inv(l) && SaveStep(l, configOid, key, m).Next? && SaveMessage(l, configOid, key, m).Ok?
    ensures CommitError(Some(l), SaveStep(l, configOid, key, m).ledger, l.repository, l.graph, NoRelation) == None
            <==> (NoControl(m.title) && l.deliveries[key].status != Skipped)
  {
    hide EncodedSize, Inv, Preserves, Validate;
    var after := SaveStep(l, configOid, key, m).ledger;
    assert CheckCapacity(after, true) == None;
    SaveMessagePreserves(l, configOid, key, m);
    if NoControl(m.title) && l.deliveries[key].status != Skipped {
      PreservedCommits(l, after);
    } else if !NoControl(m.title) {
      UncleanIsInvalid(after, key, m);
      assert after.deliveries[key] != l.deliveries[key];
    } else {
      assert !RecordExtends(l.deliveries[key], after.deliveries[key]);
      assert !DeliveriesKept(l, after);
    }
  }

  lemma PreservedCommits(before: Ledger, after: Ledger)
    requires Inv(before) && Preserves(before, after) && EncodedSize(after) <= MAX_LEDGER_BYTES
    ensures CommitError(Some(before), after, before.repository, before.graph, NoRelation) == None
  {
    hide EncodedSize;
    InvIsValid(after);
  }

  /** Single-line text as it is presented: control and format characters become spaces. */
  function CleanText(s: string, format: char -> bool): string {
    seq(|s|, i requires 0 <= i < |s| => if IsControl(s[i]) || format(s[i]) then ' ' else s[i])
  }

  /** So a rendered message, whatever it was made from, is refused only for a record retired without one. */
  lemma RenderedMessageCommits(l: Ledger, configOid: Oid, key: Id, text: string, format: char -> bool, body: string)
    requires Inv(l) && SaveStep(l, configOid, key, Message(CleanText(text, format), body)).Next?
    requires SaveMessage(l, configOid, key, Message(CleanText(text, format), body)).Ok?
    ensures CommitError(Some(l), SaveStep(l, configOid, key, Message(CleanText(text, format), body)).ledger,
              l.repository, l.graph, NoRelation) == None
            <==> l.deliveries[key].status != Skipped
  {
    hide CommitError, SaveStep, Inv, CheckCapacity;
    assert NoControl(CleanText(text, format));
    SavedMessageCommits(l, configOid, key, Message(CleanText(text, format), body));
  }

  // ---------------------------------------------------------------------- claims

  lemma ClaimedRecordIsGood(r: Record, attempt: Id, now: Time)
    requires GoodRecord(r) && !Terminal(r) && r.message.Some? && attempt !in r.attemptIds
    requires SafeId(attempt, 128) && !BadAttempt(attempt)
    ensures GoodRecord(ClaimedRecord(r, attempt, now)) && RecordExtends(r, ClaimedRecord(r, attempt, now))
  {
    var c := ClaimedRecord(r, attempt, now);
    assert c.attemptIds[|r.attemptIds|] == attempt;
    assert c.lease.attemptId in c.attemptIds;
  }

  lemma ClaimPreserves(l: Ledger, configOid: Oid, key: Id, attempt: Id, now: Time)
    requires Inv(l) && SafeId(attempt, 128) && ClaimStep(l, configOid, key, attempt, now).Next?
    ensures Preserves(l, ClaimStep(l, configOid, key, attempt, now).ledger)
  {
    hide Preserves;
    var r := l.deliveries[key];
    assert GoodDelivery(key, r, l.destinations, l.events);
    ClaimedRecordIsGood(r, attempt, now);
    OneRecordPreserves(l, key, ClaimedRecord(r, attempt, now), Lease(attempt, now + CLAIM_DURATION), now + SECOND);
  }

  lemma RenewedRecordIsGood(r: Record, until: Time)
    requires GoodRecord(r) && r.status == Claimed && until != NEVER
    ensures GoodRecord(r.(lease := Lease(r.lease.attemptId, until)))
    ensures RecordExtends(r, r.(lease := Lease(r.lease.attemptId, until)))
  {
  }

  lemma RenewClaimPreserves(l: Ledger, configOid: Oid, key: Id, attempt: Id, now: Time)
    requires Inv(l) && RenewClaim(l, configOid, key, attempt, now).Next?
    ensures Preserves(l, RenewClaim(l, configOid, key, attempt, now).ledger)
  {
    var r := l.deliveries[key];
    var lease := Lease(attempt, now + CLAIM_DURATION);
    assert GoodDelivery(key, r, l.destinations, l.events);
    RenewedRecordIsGood(r, lease.until);
    OneRecordPreserves(l, key, r.(lease := lease), lease, l.destinations[r.destination].nextSendAt);
  }

  // --------------------------------------------------------------------- results

  /** A settled record stays well formed; acceptance needs the message the invariant provides. */
  lemma SettledRecordIsGood(r: Record, attempt: Id, result: AttemptResult, now: Time)
    requires GoodRecord(r) && attempt in r.attemptIds && AttemptOutcome(result.code) && now != NEVER
    requires Settles(r, attempt, result.code)
    ensures GoodRecord(SettledRecord(r, result, now)) && RecordExtends(r, SettledRecord(r, result, now))
  {
  }

  lemma ResultPreserves(l: Ledger, key: Id, attempt: Id, result: AttemptResult, now: Time)
    requires Inv(l) && ApplyResult(l, key, attempt, result, now).Next?
    ensures Preserves(l, ApplyResult(l, key, attempt, result, now).ledger)
  {
    var r := l.deliveries[key];
    assert GoodDelivery(key, r, l.destinations, l.events);
    if Settles(r, attempt, result.code) {
      var d := l.destinations[r.destination];
      var settled := SettledRecord(r, result, now);
      SettledRecordIsGood(r, attempt, result, now);
      if d.lease.attemptId == attempt {
        OneRecordPreserves(l, key, settled, NO_LEASE, d.nextSendAt);
      } else {
        ReplacedRecordFollows(l, key, settled);
        RecordsPreserve(l, l.deliveries[key := settled]);
      }
    } else {
      PreservesItself(l);
    }
  }

  lemma ValidSettledRecord(r: Record, attempt: Id, result: AttemptResult, now: Time)
    requires ValidRecord(r) && attempt in r.attemptIds && result.code == Accepted && now != NEVER
    requires r.status != Delivered
    ensures ValidRecord(SettledRecord(r, result, now)) <==> r.message.Some?
  {
  }

  /**
   * Validity alone is not inductive. Accepting an attempt on a valid ledger
   * gives a valid ledger exactly when the record carries the message that its
   * attempts must have had.
   */
  lemma LateAcceptanceNeedsItsMessage(l: Ledger, key: Id, attempt: Id, result: AttemptResult, now: Time)
    requires Validate(l) == None && ApplyResult(l, key, attempt, result, now).Next? && result.code == Accepted
    ensures Validate(ApplyResult(l, key, attempt, result, now).ledger) == None <==> l.deliveries[key].message.Some?
  {
    var r := l.deliveries[key];
    var after := ApplyResult(l, key, attempt, result, now).ledger;
    assert ValidDelivery(key, r, l.destinations, l.events);
    if r.status != Delivered {
      ValidSettledRecord(r, attempt, result, now);
      TouchDestination(l.destinations, r.destination, NO_LEASE, l.destinations[r.destination].nextSendAt);
      if r.message.Some? {
        forall k | k in after.deliveries
          ensures ValidDelivery(k, after.deliveries[k], after.destinations, after.events)
        {
          assert ValidDelivery(k, l.deliveries[k], l.destinations, l.events);
        }
      } else {
        assert !ValidDelivery(key, after.deliveries[key], after.destinations, after.events);
      }
    }
  }

  // --------------------------------------------------------------------- batches

  ghost predicate SafeAttempts(attempts: map<Id, Id>) {
    forall k :: k in attempts ==> SafeId(attempts[k], 128)
  }

  /** Claiming a list of keys rewrites only records that may be rewritten. */
  lemma {:induction false} ClaimKeysFollow(l: Ledger, d: Destination, destination: string, keys: seq<Id>,
          attempts: map<Id, Id>, now: Time)
    requires Inv(l) && SafeAttempts(attempts) && ClaimKeys(l, d, destination, keys, attempts, now).Ok?
    ensures RecordsFollow(l.deliveries, ClaimKeys(l, d, destination, keys, attempts, now).value.deliveries)
  {
    if keys == [] {
      forall k | k in l.deliveries ensures RecordFollows(l.deliveries[k], l.deliveries[k]) {
        assert GoodDelivery(k, l.deliveries[k], l.destinations, l.events);
        GoodRecordFollowsItself(l.deliveries[k]);
      }
    } else {
      var prefix := keys[..|keys| - 1];
      var key := keys[|keys| - 1];
      ClaimKeysFollow(l, d, destination, prefix, attempts, now);
      var before := ClaimKeys(l, d, destination, prefix, attempts, now).value.deliveries;
      var r := before[key];
      assert RecordFollows(l.deliveries[key], r);
      if BatchKeyDue(l, d, r, now) {
        ClaimedRecordIsGood(r, attempts[key], now);
        RecordExtendsTransitive(l.deliveries[key], r, ClaimedRecord(r, attempts[key], now));
        var after := before[key := ClaimedRecord(r, attempts[key], now)];
        forall k | k in l.deliveries ensures RecordFollows(l.deliveries[k], after[k]) {
          assert RecordFollows(l.deliveries[k], before[k]);
        }
      }
    }
  }

  lemma ClaimBatchPreserves(l: Ledger, configOid: Oid, destination: string, batch: Id, keys: seq<Id>,
          attempts: map<Id, Id>, now: Time)
    requires Inv(l) && SafeAttempts(attempts)
    requires ClaimBatchStep(l, configOid, destination, batch, keys, attempts, now).Ok?
    ensures Preserves(l, ClaimBatchStep(l, configOid, destination, batch, keys, attempts, now).value.ledger)
  {
    hide ClaimKeys, RecordsFollow, Preserves;
    var d := l.destinations[destination];
    ClaimKeysFollow(l, d, destination, keys, attempts, now);
    WithLeasePreserves(l, ClaimKeys(l, d, destination, keys, attempts, now).value.deliveries, destination,
                       Lease(batch, now + CLAIM_DURATION), now + SECOND);
  }

  lemma RenewedRecordsFollow(l: Ledger, d: Destination, attempts: map<Id, Id>, now: Time)
    requires Inv(l)
    ensures RecordsFollow(l.deliveries, RenewedDeliveries(l, d, attempts, now))
  {
    hide GoodRecord, RecordExtends, Routed;
    var after := RenewedDeliveries(l, d, attempts, now);
    forall k | k in l.deliveries ensures RecordFollows(l.deliveries[k], after[k]) {
      var r := l.deliveries[k];
      assert GoodDelivery(k, r, l.destinations, l.events);
      if k in attempts && Renewable(d, r, attempts[k], now) {
        RenewedRecordIsGood(r, now + CLAIM_DURATION);
      } else {
        GoodRecordFollowsItself(r);
      }
    }
  }

  lemma RenewBatchPreserves(l: Ledger, configOid: Oid, destination: string, batch: Id, attempts: map<Id, Id>, now: Time)
    requires Inv(l) && RenewBatch(l, configOid, destination, batch, attempts, now).Next?
    ensures Preserves(l, RenewBatch(l, configOid, destination, batch, attempts, now).ledger)
  {
    var after := RenewBatch(l, configOid, destination, batch, attempts, now).ledger;
    var d := l.destinations[destination];
    RenewedRecordsFollow(l, d, attempts, now);
    assert ValidDestination(destination, d);
    WithLeasePreserves(l, after.deliveries, destination, Lease(batch, now + CLAIM_DURATION), d.nextSendAt);
  }

  lemma SettledRecordsFollow(l: Ledger, destination: string, receipts: map<Id, Receipt>, now: Time)
    requires Inv(l) && now != NEVER
    requires forall k :: k in receipts ==> !BadReceipt(l, destination, k, receipts[k], now)
    ensures RecordsFollow(l.deliveries, SettleAll(l, destination, receipts, now).deliveries)
  {
    var after := SettleAll(l, destination, receipts, now);
    forall k | k in l.deliveries ensures RecordFollows(l.deliveries[k], after.deliveries[k]) {
      var r := l.deliveries[k];
      assert GoodDelivery(k, r, l.destinations, l.events);
      if k in receipts && ReceiptSettles(l, k, receipts[k]) {
        assert !BadReceipt(l, destination, k, receipts[k], now);
        SettledRecordIsGood(r, receipts[k].attemptId, receipts[k].result, now);
      } else {
        GoodRecordFollowsItself(r);
      }
    }
  }

  lemma SettleAllPreserves(l: Ledger, destination: string, receipts: map<Id, Receipt>, now: Time)
    requires Inv(l) && now != NEVER && destination in l.destinations
    requires forall k :: k in receipts ==> !BadReceipt(l, destination, k, receipts[k], now)
    ensures Preserves(l, SettleAll(l, destination, receipts, now))
  {
    var after := SettleAll(l, destination, receipts, now);
    SettledRecordsFollow(l, destination, receipts, now);
    if Held(l, destination, receipts) {
      WithLeasePreserves(l, after.deliveries, destination, NO_LEASE, l.destinations[destination].nextSendAt);
    } else {
      RecordsPreserve(l, after.deliveries);
    }
  }

  /** With no receipt at all only the lease of a destination can change. */
  lemma ReleasePreserves(l: Ledger, destination: string, batch: Id, now: Time)
    requires Inv(l)
    ensures Preserves(l, ReleaseBatch(l, destination, batch, now))
  {
    var after := ReleaseBatch(l, destination, batch, now);
    PreservesItself(l);
    if after != l {
      forall k | k in l.deliveries ensures RecordFollows(l.deliveries[k], l.deliveries[k]) {
        assert GoodDelivery(k, l.deliveries[k], l.destinations, l.events);
        GoodRecordFollowsItself(l.deliveries[k]);
      }
      WithLeasePreserves(l, l.deliveries, destination, NO_LEASE, now + SECOND);
    }
  }

  lemma PreservesTransitive(a: Ledger, b: Ledger, c: Ledger)
    requires Preserves(a, b) && Preserves(b, c)
    ensures Preserves(a, c)
  {
    ExtendsTransitive(a, b, c);
  }

  lemma NoReceiptsSettleNothing(l: Ledger, destination: string, now: Time)
    ensures SettleAll(l, destination, map[], now) == l
  {
  }

  lemma ResultsPreserve(l: Ledger, destination: string, batch: Id, receipts: map<Id, Receipt>, now: Time)
    requires Inv(l) && ResultsStep(l, destination, batch, receipts, now).Next?
    ensures Preserves(l, ResultsStep(l, destination, batch, receipts, now).ledger)
  {
    var settled := SettleAll(l, destination, receipts, now);
    if receipts == map[] {
      NoReceiptsSettleNothing(l, destination, now);
      PreservesItself(l);
    } else {
      var k :| k in receipts;
      assert !BadReceipt(l, destination, k, receipts[k], now);
      assert GoodDelivery(k, l.deliveries[k], l.destinations, l.events);
      SettleAllPreserves(l, destination, receipts, now);
    }
    ReleasePreserves(settled, destination, batch, now);
    PreservesTransitive(l, settled, ReleaseBatch(settled, destination, batch, now));
  }
}
