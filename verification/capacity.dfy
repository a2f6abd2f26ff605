/** Room reserved before sending: results always fit once their claims did. */
module Capacity {
  import opened Basics
  import opened Text
  import opened Model
  import opened MapSum
  import opened Codec
  import opened Reducer
  import opened Invariant
  import opened Agreement
  import opened Acceptance
  import opened Receipts

  /** The longest the rewritable members of a record can get, its lease identifier aside. */
  const META_MAX: nat := 187

  /** A terminal record's bytes; an open record's bytes after the longest possible result. */
  function WorstEntry(key: Id, r: Record): nat {
    if Terminal(r) then RecordEntry(key, r) else RecordCore(key, r) + JsonId(r.lease.attemptId) + META_MAX
  }

  /** Some open record is owed to the destination; its reserve also pays for the destination's lease. */
  predicate Backed(deliveries: map<Id, Record>, n: string) {
    exists k {:trigger deliveries[k]} :: k in deliveries && !Terminal(deliveries[k]) && deliveries[k].destination == n
  }

  /** A destination's bytes, with the longest lease instant if an open record backs it. */
  ghost function WorstDestination(deliveries: map<Id, Record>, n: string, d: Destination): nat {
    DestinationEntry(n, d) + if Backed(deliveries, n) then INSTANT_MAX - JsonTime(d.lease.until) else 0
  }

  const INSTANT_MAX := 32
  const HEADROOM := 10

  ghost function DestinationWeight(deliveries: map<Id, Record>): (string, Destination) -> nat {
    (n: string, d: Destination) => WorstDestination(deliveries, n, d)
  }

  ghost function WorstSize(l: Ledger): nat {
    FixedSize(l) + Sum(l.destinations, DestinationWeight(l.deliveries)) + Sum(l.deliveries, WorstEntry)
  }

  predicate StatusRecorded(r: Record) {
    r.lastStatus == 0 || 100 <= r.lastStatus <= 599
  }

  ghost predicate StatusesRecorded(deliveries: map<Id, Record>) {
    forall k {:trigger deliveries[k]} :: k in deliveries ==> StatusRecorded(deliveries[k])
  }

  /** Every open record's result is paid for already. */
  ghost predicate Funded(l: Ledger) {
    |l.deliveries| <= MAX_DELIVERIES && StatusesRecorded(l.deliveries) && WorstSize(l) <= MAX_LEDGER_BYTES
  }

  lemma LastStatusIsShort(n: int)
    requires n == 0 || 100 <= n <= 599
    ensures LastStatusLen(n) <= 17
  {
    if n != 0 {
      assert JsonInt(n) == 1 + Digits(n / 10) && Digits(n / 10) == 1 + Digits(n / 10 / 10) && n / 10 / 10 < 10;
    }
  }

  /** What an open record pays towards its destination's lease. */
  function LeaseShare(key: Id, r: Record): nat {
    if Terminal(r) then 0 else HEADROOM
  }

  lemma EntryBounds(key: Id, r: Record)
    ensures WorstEntry(key, r) + LeaseShare(key, r) <= RecordEntry(key, r) + ReserveOf(key, r)
    ensures StatusRecorded(r) ==> RecordEntry(key, r) <= WorstEntry(key, r)
  {
    if StatusRecorded(r) { LastStatusIsShort(r.lastStatus); }
  }

  function EntryAndReserve(key: Id, r: Record): nat {
    RecordEntry(key, r) + ReserveOf(key, r)
  }

  function EntryAndShare(key: Id, r: Record): nat {
    WorstEntry(key, r) + LeaseShare(key, r)
  }

  /** One record backs at most its own destination. */
  lemma OneRecordBacks(destinations: map<string, Destination>, deliveries: map<Id, Record>, k: Id)
    requires k in deliveries
    ensures Sum(destinations, DestinationWeight(deliveries))
            <= Sum(destinations, DestinationWeight(deliveries - {k})) + LeaseShare(k, deliveries[k])
  {
    hide DestinationEntry;
    var f, g := DestinationWeight(deliveries), DestinationWeight(deliveries - {k});
    var r := deliveries[k];
    forall n | n in destinations
      ensures f(n, destinations[n]) <= g(n, destinations[n]) + if n == r.destination then LeaseShare(k, r) else 0
    {
      forall other | other in deliveries && other != k ensures (deliveries - {k})[other] == deliveries[other] {}
      if Backed(deliveries - {k}, n) {
        var other :| other in deliveries - {k} && !Terminal((deliveries - {k})[other])
            && (deliveries - {k})[other].destination == n;
        assert deliveries[other] == (deliveries - {k})[other];
      }
    }
    SumBump(destinations, f, g, r.destination, LeaseShare(k, r));
  }

  /** The open records pay for the lease instants of every destination they back. */
  lemma {:induction false} BackingIsPaid(destinations: map<string, Destination>, deliveries: map<Id, Record>)
    ensures Sum(destinations, DestinationWeight(deliveries))
            <= Sum(destinations, DestinationEntry) + Sum(deliveries, LeaseShare)
    decreases |deliveries|
  {
    hide DestinationEntry;
    if deliveries == map[] {
      SumMonotone(destinations, destinations, DestinationWeight(deliveries), DestinationEntry);
    } else {
      var k :| k in deliveries;
      OneRecordBacks(destinations, deliveries, k);
      BackingIsPaid(destinations, deliveries - {k});
      SumRemove(deliveries, k, LeaseShare);
    }
  }

  /** The reserving check is what funds the results, and the leases of the destinations they are owed to. */
  lemma ReservationFunds(l: Ledger)
    requires CheckCapacity(l, true) == None && StatusesRecorded(l.deliveries)
    ensures Funded(l)
  {
    hide FixedSize, DestinationWeight;
    forall k | k in l.deliveries ensures EntryAndShare(k, l.deliveries[k]) <= EntryAndReserve(k, l.deliveries[k]) {
      EntryBounds(k, l.deliveries[k]);
    }
    SumMonotone(l.deliveries, l.deliveries, EntryAndShare, EntryAndReserve);
    SumAdd(l.deliveries, RecordEntry, ReserveOf, EntryAndReserve);
    SumAdd(l.deliveries, WorstEntry, LeaseShare, EntryAndShare);
    BackingIsPaid(l.destinations, l.deliveries);
  }

  lemma FundedFits(l: Ledger)
    requires Funded(l)
    ensures CheckCapacity(l, false) == None
  {
    hide FixedSize;
    forall k | k in l.deliveries ensures RecordEntry(k, l.deliveries[k]) <= WorstEntry(k, l.deliveries[k]) {
      EntryBounds(k, l.deliveries[k]);
    }
    SumMonotone(l.deliveries, l.deliveries, RecordEntry, WorstEntry);
    SumMonotone(l.destinations, l.destinations, DestinationEntry, DestinationWeight(l.deliveries));
  }

  // --------------------------------------------------------------------- results

  lemma SettlingKeepsCore(key: Id, r: Record, result: AttemptResult, now: Time)
    ensures RecordCore(key, SettledRecord(r, result, now)) == RecordCore(key, r)
  {
    hide CoreSize;
  }

  lemma SettledMetaIsBounded(r: Record, result: AttemptResult, now: Time)
    ensures RecordMeta(SettledRecord(r, result, now)) <= META_MAX + 2
    ensures StatusRecorded(SettledRecord(r, result, now))
  {
    LastStatusIsShort(SettledRecord(r, result, now).lastStatus);
  }

  lemma SettledCostsNoMore(key: Id, r: Record, result: AttemptResult, now: Time)
    requires !Terminal(r)
    ensures WorstEntry(key, SettledRecord(r, result, now)) <= WorstEntry(key, r)
    ensures StatusRecorded(SettledRecord(r, result, now))
  {
    hide RecordCore, RecordMeta;
    SettlingKeepsCore(key, r, result, now);
    SettledMetaIsBounded(r, result, now);
  }

  /** Receipts nothing was reserved for: acceptances that arrive after the record was skipped. */
  predicate LateForSkipped(l: Ledger, key: Id, receipt: Receipt) {
    key in l.deliveries && l.deliveries[key].status == Skipped && receipt.result.code == Accepted
  }

  function LateKeys(l: Ledger, receipts: map<Id, Receipt>): (late: set<Id>)
    ensures late <= l.deliveries.Keys
  {
    set k | k in receipts && LateForSkipped(l, k, receipts[k])
  }

  /** What a late acceptance can add to a skipped record. */
  const LATE_GROWTH := 57

  /** There is room for what was not reserved; always so when nothing is late. */
  ghost predicate Affordable(l: Ledger, receipts: map<Id, Receipt>) {
    LateKeys(l, receipts) == {} || WorstSize(l) + LATE_GROWTH * |LateKeys(l, receipts)| <= MAX_LEDGER_BYTES
  }

  function WithLate(late: set<Id>): (Id, Record) -> nat {
    (k: Id, r: Record) => WorstEntry(k, r) + if k in late then LATE_GROWTH else 0
  }

  lemma LateCostsLittle(key: Id, r: Record, result: AttemptResult, now: Time)
    requires r.status == Skipped && result.code == Accepted
    ensures WorstEntry(key, SettledRecord(r, result, now)) <= WorstEntry(key, r) + LATE_GROWTH
    ensures StatusRecorded(SettledRecord(r, result, now))
  {
    hide RecordCore;
    SettlingKeepsCore(key, r, result, now);
    LastStatusIsShort(SettledRecord(r, result, now).lastStatus);
  }

  lemma GrownRecords(before: map<Id, Record>, after: map<Id, Record>, late: set<Id>)
    requires after.Keys == before.Keys && late <= before.Keys
    requires forall k {:trigger after[k]} :: k in after
              ==> WorstEntry(k, after[k]) <= WorstEntry(k, before[k]) + if k in late then LATE_GROWTH else 0
    ensures Sum(after, WorstEntry) <= Sum(before, WorstEntry) + LATE_GROWTH * |late| && |after| == |before|
  {
    assert |after| == |after.Keys| == |before.Keys|;
    hide WorstEntry;
    SumMonotone(after, before, WorstEntry, WithLate(late));
    SumAdd(before, WorstEntry, Marked(late, LATE_GROWTH), WithLate(late));
    SumMarked(before, late, LATE_GROWTH);
  }

  /** Leaving all else alone, cheaper records and destinations make a cheaper ledger, late acceptances aside. */
  lemma GrownLedger(before: Ledger, after: Ledger, late: set<Id>)
    requires after == before.(deliveries := after.deliveries, destinations := after.destinations)
    requires late <= before.deliveries.Keys
    requires after.deliveries.Keys == before.deliveries.Keys && after.destinations.Keys == before.destinations.Keys
    requires forall k {:trigger after.deliveries[k]} :: k in after.deliveries ==>
               WorstEntry(k, after.deliveries[k]) <= WorstEntry(k, before.deliveries[k])
                   + if k in late then LATE_GROWTH else 0
    requires forall n {:trigger after.destinations[n]} :: n in after.destinations ==>
               WorstDestination(after.deliveries, n, after.destinations[n])
                     <= WorstDestination(before.deliveries, n, before.destinations[n])
    ensures WorstSize(after) <= WorstSize(before) + LATE_GROWTH * |late| && |after.deliveries| == |before.deliveries|
  {
    assert |after.destinations| == |after.destinations.Keys| == |before.destinations.Keys|;
    hide FixedSize, WorstDestination, WorstEntry;
    GrownRecords(before.deliveries, after.deliveries, late);
    SameFixedSize(before, after);
    SumMonotone(after.destinations, before.destinations, DestinationWeight(after.deliveries),
                DestinationWeight(before.deliveries));
  }

  lemma CheaperLedger(before: Ledger, after: Ledger)
    requires after == before.(deliveries := after.deliveries, destinations := after.destinations)
    requires after.deliveries.Keys == before.deliveries.Keys && after.destinations.Keys == before.destinations.Keys
    requires forall k {:trigger after.deliveries[k]} :: k in after.deliveries ==>
               WorstEntry(k, after.deliveries[k]) <= WorstEntry(k, before.deliveries[k])
    requires forall n {:trigger after.destinations[n]} :: n in after.destinations ==>
               WorstDestination(after.deliveries, n, after.destinations[n])
                     <= WorstDestination(before.deliveries, n, before.destinations[n])
    ensures WorstSize(after) <= WorstSize(before) && |after.deliveries| == |before.deliveries|
  {
    hide WorstSize, WorstEntry, WorstDestination;
    GrownLedger(before, after, {});
  }

  lemma SameFixedSize(before: Ledger, after: Ledger)
    requires after == before.(deliveries := after.deliveries, destinations := after.destinations)
    requires |after.deliveries| == |before.deliveries| && |after.destinations| == |before.destinations|
    ensures FixedSize(after) == FixedSize(before)
  {
  }

  /** Every open record was open before, and is owed to the same destination. */
  ghost predicate OpensNothing(before: map<Id, Record>, after: map<Id, Record>) {
    && after.Keys == before.Keys
    && forall k {:trigger after[k]} :: k in after ==>
         after[k].destination == before[k].destination && (!Terminal(after[k]) ==> !Terminal(before[k]))
  }

  lemma BackedBefore(before: map<Id, Record>, after: map<Id, Record>, n: string)
    requires OpensNothing(before, after) && Backed(after, n)
    ensures Backed(before, n)
  {
    var k :| k in after && !Terminal(after[k]) && after[k].destination == n;
    assert before[k].destination == n;
  }

  /** A destination that drops its lease costs no more, whatever it is owed. */
  lemma ClearedLeaseCostsNoMore(name: string, d: Destination, before: map<Id, Record>, after: map<Id, Record>)
    requires Backed(after, name) ==> Backed(before, name)
    ensures WorstDestination(after, name, d) <= WorstDestination(before, name, d)
    ensures WorstDestination(after, name, d.(lease := NO_LEASE)) <= WorstDestination(before, name, d)
  {
    hide Backed;
  }

  /** A batch identifier is a digest, so dropping it pays for the new pacing time. */
  lemma ReleasedBatchCostsNoMore(name: string, d: Destination, deliveries: map<Id, Record>, at: Time)
    requires d.lease.attemptId.BatchDigest?
    ensures WorstDestination(deliveries, name, d.(lease := NO_LEASE, nextSendAt := at))
            <= WorstDestination(deliveries, name, d)
  {
    hide Backed;
  }

  lemma SettledRecordAt(l: Ledger, destination: string, receipts: map<Id, Receipt>, now: Time, k: Id)
    requires k in l.deliveries
    ensures SettleAll(l, destination, receipts, now).deliveries[k]
            == if k in receipts && ReceiptSettles(l, k, receipts[k])
               then SettledRecord(l.deliveries[k], receipts[k].result, now)
               else l.deliveries[k]
  {
    hide Held, SettledRecord, ReceiptSettles;
  }

  lemma SettlingOpensNothing(l: Ledger, destination: string, receipts: map<Id, Receipt>, now: Time)
    ensures OpensNothing(l.deliveries, SettleAll(l, destination, receipts, now).deliveries)
  {
    hide Held;
    var after := SettleAll(l, destination, receipts, now).deliveries;
    forall k | k in after
      ensures after[k].destination == l.deliveries[k].destination
      ensures !Terminal(after[k]) ==> !Terminal(l.deliveries[k])
    {
      SettledRecordAt(l, destination, receipts, now, k);
    }
  }

  lemma SettlingCosts(l: Ledger, destination: string, receipts: map<Id, Receipt>, now: Time, k: Id)
    requires k in l.deliveries && StatusRecorded(l.deliveries[k])
    ensures var after := SettleAll(l, destination, receipts, now).deliveries[k];
            && WorstEntry(k, after)
               <= WorstEntry(k, l.deliveries[k]) + (if k in LateKeys(l, receipts) then LATE_GROWTH else 0)
            && StatusRecorded(after)
  {
    hide WorstEntry, SettleAll, SettledRecord;
    SettledRecordAt(l, destination, receipts, now, k);
    if k in receipts && ReceiptSettles(l, k, receipts[k]) {
      if k in LateKeys(l, receipts) {
        LateCostsLittle(k, l.deliveries[k], receipts[k].result, now);
      } else {
        SettledCostsNoMore(k, l.deliveries[k], receipts[k].result, now);
      }
    }
  }

  lemma SettlingKeepsFunding(l: Ledger, destination: string, receipts: map<Id, Receipt>, now: Time)
    requires Funded(l) && Named(l, destination) && Affordable(l, receipts)
    ensures Funded(SettleAll(l, destination, receipts, now))
  {
    hide WorstSize, WorstEntry, WorstDestination, Backed, Held, ReceiptSettles, SettledRecord, LateKeys;
    var after := SettleAll(l, destination, receipts, now);
    forall k | k in after.deliveries
      ensures WorstEntry(k, after.deliveries[k]) <= WorstEntry(k, l.deliveries[k])
              + if k in LateKeys(l, receipts) then LATE_GROWTH else 0
      ensures StatusRecorded(after.deliveries[k])
    {
      SettlingCosts(l, destination, receipts, now, k);
    }
    SettlingOpensNothing(l, destination, receipts, now);
    forall n | n in after.destinations
      ensures WorstDestination(after.deliveries, n, after.destinations[n])
              <= WorstDestination(l.deliveries, n, l.destinations[n])
    {
      if Backed(after.deliveries, n) { BackedBefore(l.deliveries, after.deliveries, n); }
      ClearedLeaseCostsNoMore(n, l.destinations[n], l.deliveries, after.deliveries);
    }
    GrownLedger(l, after, LateKeys(l, receipts));
  }

  lemma ReleaseKeepsFunding(l: Ledger, destination: string, batch: Id, now: Time)
    requires Funded(l) && Named(l, destination) && batch.BatchDigest?
    ensures Funded(ReleaseBatch(l, destination, batch, now))
  {
    hide WorstSize, WorstEntry, DestinationEntry, WorstDestination;
    var after := ReleaseBatch(l, destination, batch, now);
    if after != l {
      ReleasedBatchCostsNoMore(destination, l.destinations[destination], l.deliveries, now + SECOND);
      CheaperLedger(l, after);
    }
  }

  lemma SettledStaysNamed(l: Ledger, destination: string, receipts: map<Id, Receipt>, now: Time)
    requires Named(l, destination)
    ensures Named(SettleAll(l, destination, receipts, now), destination)
  {
  }

  /** Results of a funded ledger are recorded, and leave the rest funded. */
  lemma ResultsFit(l: Ledger, destination: string, batch: Id, receipts: map<Id, Receipt>, now: Time)
    requires Funded(l) && Named(l, destination) && batch.BatchDigest? && Affordable(l, receipts)
    requires ResultsStep(l, destination, batch, receipts, now).Next?
    ensures RecordResults(l, destination, batch, receipts, now)
            == Ok(ResultsStep(l, destination, batch, receipts, now).ledger)
    ensures Funded(ResultsStep(l, destination, batch, receipts, now).ledger)
  {
    hide WorstSize, EncodedSize;
    var settled := SettleAll(l, destination, receipts, now);
    SettlingKeepsFunding(l, destination, receipts, now);
    SettledStaysNamed(l, destination, receipts, now);
    ReleaseKeepsFunding(settled, destination, batch, now);
    FundedFits(ReleaseBatch(settled, destination, batch, now));
  }

  /** The same for one receipt recorded on its own. */
  lemma ResultFits(l: Ledger, key: Id, attempt: Id, result: AttemptResult, now: Time)
    requires Funded(l) && key in l.deliveries && Named(l, l.deliveries[key].destination)
    requires Affordable(l, map[key := Receipt(attempt, result)])
    requires ApplyResult(l, key, attempt, result, now).Next?
    ensures RecordResult(l, key, attempt, result, now) == Ok(ApplyResult(l, key, attempt, result, now).ledger)
    ensures Funded(ApplyResult(l, key, attempt, result, now).ledger)
  {
    hide WorstSize, EncodedSize;
    var destination := l.deliveries[key].destination;
    var receipt := Receipt(attempt, result);
    NoReceiptsSettleNothing(l, destination, now);
    SettleOneMore(l, destination, map[], key, receipt, now);
    SettlingKeepsFunding(l, destination, map[key := receipt], now);
    FundedFits(SettleAll(l, destination, map[key := receipt], now));
  }

  // -------------------------------------------------------------------- renewals

  /** A record that keeps its lease holder pays a longer instant from its own reserve. */
  lemma RenewedEntry(key: Id, r: Record, until: Time)
    requires !Terminal(r)
    ensures var after := r.(lease := Lease(r.lease.attemptId, until));
            && WorstEntry(key, after) == WorstEntry(key, r)
            && RecordEntry(key, after) <= RecordEntry(key, r) + LeaseShare(key, r)
  {
    hide CoreSize;
  }

  lemma RenewedRecord(l: Ledger, d: Destination, attempts: map<Id, Id>, now: Time, key: Id)
    requires key in l.deliveries
    ensures var after := RenewedDeliveries(l, d, attempts, now)[key];
            && WorstEntry(key, after) <= WorstEntry(key, l.deliveries[key])
            && RecordEntry(key, after) <= EntryWithShare(key, l.deliveries[key])
            && after.destination == l.deliveries[key].destination && after.lastStatus == l.deliveries[key].lastStatus
            && (!Terminal(after) ==> !Terminal(l.deliveries[key]))
  {
    hide WorstEntry, RecordEntry;
    if !Terminal(l.deliveries[key]) { RenewedEntry(key, l.deliveries[key], now + CLAIM_DURATION); }
  }

  function EntryWithShare(key: Id, r: Record): nat {
    RecordEntry(key, r) + LeaseShare(key, r)
  }

  lemma RenewedRecordsCostNoMore(l: Ledger, d: Destination, attempts: map<Id, Id>, now: Time)
    ensures var after := RenewedDeliveries(l, d, attempts, now);
            && OpensNothing(l.deliveries, after)
            && forall k {:trigger after[k]} :: k in after ==>
                 && WorstEntry(k, after[k]) <= WorstEntry(k, l.deliveries[k])
                 && RecordEntry(k, after[k]) <= EntryWithShare(k, l.deliveries[k])
                 && after[k].lastStatus == l.deliveries[k].lastStatus
  {
    hide WorstEntry, RecordEntry, EntryWithShare;
    var after := RenewedDeliveries(l, d, attempts, now);
    forall k | k in after
      ensures WorstEntry(k, after[k]) <= WorstEntry(k, l.deliveries[k])
      ensures RecordEntry(k, after[k]) <= EntryWithShare(k, l.deliveries[k])
      ensures after[k].destination == l.deliveries[k].destination && after[k].lastStatus == l.deliveries[k].lastStatus
      ensures !Terminal(after[k]) ==> !Terminal(l.deliveries[k])
    {
      RenewedRecord(l, d, attempts, now, k);
    }
  }

  /** A longer lease of the same holder is within what its backing pays for. */
  lemma LongerLeaseCostsNoMore(name: string, d: Destination, before: map<Id, Record>, after: map<Id, Record>,
          until: Time)
    requires Backed(before, name)
    ensures WorstDestination(after, name, d.(lease := Lease(d.lease.attemptId, until)))
            <= WorstDestination(before, name, d)
  {
    hide Backed;
  }

  lemma LessBackingCostsNoMore(name: string, d: Destination, before: map<Id, Record>, after: map<Id, Record>)
    requires Backed(after, name) ==> Backed(before, name)
    ensures WorstDestination(after, name, d) <= WorstDestination(before, name, d)
  {
    hide Backed;
  }

  ghost predicate NoRecordCostsMore(before: map<Id, Record>, after: map<Id, Record>) {
    && OpensNothing(before, after)
    && forall k {:trigger after[k]} :: k in after ==>
         WorstEntry(k, after[k]) <= WorstEntry(k, before[k]) && after[k].lastStatus == before[k].lastStatus
  }

  /** No dearer records, and at most one destination rewritten without getting dearer. */
  lemma OneLeaseKeepsFunding(before: Ledger, after: Ledger, name: string)
    requires Funded(before) && NoRecordCostsMore(before.deliveries, after.deliveries) && name in before.destinations
              && name in after.destinations
    requires after == before.(deliveries := after.deliveries,
                              destinations := before.destinations[name := after.destinations[name]])
    requires WorstDestination(after.deliveries, name, after.destinations[name])
              <= WorstDestination(before.deliveries, name, before.destinations[name])
    ensures Funded(after)
  {
    hide WorstSize, WorstEntry, WorstDestination, Backed;
    forall n | n in after.destinations
      ensures WorstDestination(after.deliveries, n, after.destinations[n])
              <= WorstDestination(before.deliveries, n, before.destinations[n])
    {
      if Backed(after.deliveries, n) { BackedBefore(before.deliveries, after.deliveries, n); }
      LessBackingCostsNoMore(n, before.destinations[n], before.deliveries, after.deliveries);
    }
    CheaperLedger(before, after);
  }

  /** Renewing a batch keeps every result paid for, as long as an open record backs its destination. */
  lemma RenewBatchKeepsFunding(l: Ledger, configOid: Oid, destination: string, batch: Id, attempts: map<Id, Id>,
          now: Time)
    requires Funded(l) && RenewBatch(l, configOid, destination, batch, attempts, now).Next?
    requires Backed(l.deliveries, destination)
    requires l.destinations[destination].name == destination
    ensures Funded(RenewBatch(l, configOid, destination, batch, attempts, now).ledger)
  {
    hide Funded, WorstEntry, WorstDestination, Backed, RenewedDeliveries, EntryWithShare, RecordEntry;
    var d := l.destinations[destination];
    var after := RenewBatch(l, configOid, destination, batch, attempts, now).ledger;
    RenewedRecordsCostNoMore(l, d, attempts, now);
    LongerLeaseCostsNoMore(destination, d, l.deliveries, after.deliveries, now + CLAIM_DURATION);
    OneLeaseKeepsFunding(l, after, destination);
  }

  /** A renewed single claim is its own backing. */
  lemma RenewClaimKeepsFunding(l: Ledger, configOid: Oid, key: Id, attempt: Id, now: Time)
    requires Funded(l) && RenewClaim(l, configOid, key, attempt, now).Next?
    requires l.deliveries[key].destination in l.destinations
    requires l.destinations[l.deliveries[key].destination].name == l.deliveries[key].destination
    ensures Funded(RenewClaim(l, configOid, key, attempt, now).ledger)
  {
    hide Funded, WorstEntry, WorstDestination, Backed;
    var r := l.deliveries[key];
    var after := RenewClaim(l, configOid, key, attempt, now).ledger;
    ClaimBacks(l.deliveries, key);
    RenewedEntry(key, r, now + CLAIM_DURATION);
    LongerLeaseCostsNoMore(r.destination, l.destinations[r.destination], l.deliveries, after.deliveries,
                           now + CLAIM_DURATION);
    OneLeaseKeepsFunding(l, after, r.destination);
  }

  lemma ClaimBacks(deliveries: map<Id, Record>, key: Id)
    requires key in deliveries && !Terminal(deliveries[key])
    ensures Backed(deliveries, deliveries[key].destination)
  {
  }

  /** Directly after any reserving check a renewal fits as soon as one record at all is open: its reserve pays. */
  lemma RenewalFitsReserve(l: Ledger, configOid: Oid, destination: string, batch: Id, attempts: map<Id, Id>, now: Time,
          open: Id)
    requires CheckCapacity(l, true) == None && RenewBatch(l, configOid, destination, batch, attempts, now).Next?
    requires l.destinations[destination].name == destination && open in l.deliveries && !Terminal(l.deliveries[open])
    ensures CheckCapacity(RenewBatch(l, configOid, destination, batch, attempts, now).ledger, false) == None
  {
    hide FixedSize, DestinationEntry, RecordEntry, RenewedDeliveries;
    var d := l.destinations[destination];
    var after := RenewBatch(l, configOid, destination, batch, attempts, now).ledger;
    RenewedRecordsCostNoMore(l, d, attempts, now);
    assert |after.deliveries| == |after.deliveries.Keys| == |l.deliveries.Keys|;
    assert |after.destinations| == |after.destinations.Keys| == |l.destinations.Keys|;
    SameFixedSize(l, after);
    SumMonotone(after.deliveries, l.deliveries, RecordEntry, EntryWithShare);
    SumAdd(l.deliveries, RecordEntry, LeaseShare, EntryWithShare);
    SumRemove(l.deliveries, open, LeaseShare);
    SumRemove(l.deliveries, open, ReserveOf);
    SumMonotone(l.deliveries - {open}, l.deliveries - {open}, LeaseShare, ReserveOf);
    LeaseChangesSize(l.destinations, destination, Lease(batch, now + CLAIM_DURATION));
  }

  /** Moving one lease of the same holder changes the encoding by the difference of the two instants. */
  lemma LeaseChangesSize(destinations: map<string, Destination>, n: string, lease: Lease)
    requires n in destinations && lease.attemptId == destinations[n].lease.attemptId
    ensures Sum(destinations[n := destinations[n].(lease := lease)], DestinationEntry)
            + JsonTime(destinations[n].lease.until)
            == Sum(destinations, DestinationEntry) + JsonTime(lease.until)
  {
    var after := destinations[n := destinations[n].(lease := lease)];
    SumRemove(destinations, n, DestinationEntry);
    SumRemove(after, n, DestinationEntry);
    assert after - {n} == destinations - {n};
  }

  /** A batch none of whose records is open any more, on a ledger with no room left for a longer lease instant. */
  ghost predicate Unpaid(l: Ledger, destination: string, now: Time) {
    && !Backed(l.deliveries, destination) && destination in l.destinations
    && EncodedSize(l) + JsonTime(now + CLAIM_DURATION)
       > MAX_LEDGER_BYTES + JsonTime(l.destinations[destination].lease.until)
  }

  lemma UnbackedRenewsNothing(l: Ledger, configOid: Oid, destination: string, batch: Id, attempts: map<Id, Id>,
          now: Time)
    requires Inv(l) && Generations(l.destinations) && RenewBatch(l, configOid, destination, batch, attempts, now).Next?
    requires !Backed(l.deliveries, destination)
    ensures RenewedDeliveries(l, l.destinations[destination], attempts, now) == l.deliveries
  {
    var d := l.destinations[destination];
    forall k | k in l.deliveries && k in attempts ensures !Renewable(d, l.deliveries[k], attempts[k], now) {
      assert GoodDelivery(k, l.deliveries[k], l.destinations, l.events);
      assert OwnGeneration(destination, d);
      if !Terminal(l.deliveries[k]) {
        assert OwnGeneration(l.deliveries[k].destination, l.destinations[l.deliveries[k].destination]);
      }
    }
  }

  /**
   * The one renewal that does not fit, by what its caller can see: nothing is owed to the destination and the ledger is
   * full.
   */
  lemma RenewalExceedsExactly(l: Ledger, configOid: Oid, destination: string, batch: Id, attempts: map<Id, Id>,
          now: Time)
    requires Inv(l) && Generations(l.destinations) && Funded(l)
    requires RenewBatch(l, configOid, destination, batch, attempts, now).Next?
    ensures EncodedSize(RenewBatch(l, configOid, destination, batch, attempts, now).ledger) > MAX_LEDGER_BYTES
            <==> Unpaid(l, destination, now)
  {
    hide FixedSize, DestinationEntry, Inv, Generations, Funded, Backed, RenewedDeliveries;
    var after := RenewBatch(l, configOid, destination, batch, attempts, now).ledger;
    NamedDestination(l, destination);
    if Backed(l.deliveries, destination) {
      RenewBatchKeepsFunding(l, configOid, destination, batch, attempts, now);
      FundedFits(after);
    } else {
      UnbackedRenewsNothing(l, configOid, destination, batch, attempts, now);
      LeaseChangesSize(l.destinations, destination, Lease(batch, now + CLAIM_DURATION));
      assert |after.destinations| == |after.destinations.Keys| == |l.destinations.Keys|;
      SameFixedSize(l, after);
    }
  }

  lemma NamedDestination(l: Ledger, n: string)
    requires Inv(l) && n in l.destinations
    ensures l.destinations[n].name == n
  {
    assert ValidDestination(n, l.destinations[n]);
  }

  // ------------------------------------------------------------------------ runs

  /** A batch's receipts, with room for the late acceptances among them. */
  ghost predicate ResultsFollow(before: Ledger, after: Ledger) {
    exists destination: string, batch: Id, receipts: map<Id, Receipt>, now: Time ::
      && Named(before, destination) && batch.BatchDigest? && Affordable(before, receipts)
      && ResultsStep(before, destination, batch, receipts, now) == Next(after)
  }

  /** A renewal, by a batch that is still owed something or of a single claim. */
  ghost predicate RenewalFollows(before: Ledger, after: Ledger) {
    || (exists configOid: Oid, destination: string, batch: Id, attempts: map<Id, Id>, now: Time ::
          && Backed(before.deliveries, destination) && DestinationOf(before, destination).name == destination
          && RenewBatch(before, configOid, destination, batch, attempts, now) == Next(after))
    || (exists configOid: Oid, key: Id, attempt: Id, now: Time ::
          && key in before.deliveries && before.deliveries[key].destination in before.destinations
          && before.destinations[before.deliveries[key].destination].name == before.deliveries[key].destination
          && RenewClaim(before, configOid, key, attempt, now) == Next(after))
  }

  /** What may happen between a claim and a result: a step that rechecks the reservation, results, or renewals. */
  ghost predicate FundingStep(before: Ledger, after: Ledger) {
    || (CheckCapacity(after, true) == None && StatusesRecorded(after.deliveries))
    || ResultsFollow(before, after) || RenewalFollows(before, after)
  }

  ghost predicate FundingRun(run: seq<Ledger>) {
    && run != [] && CheckCapacity(run[0], true) == None && StatusesRecorded(run[0].deliveries)
    && forall i {:trigger FundingStep(run[i], run[i + 1])} :: 0 <= i < |run| - 1 ==> FundingStep(run[i], run[i + 1])
  }

  lemma RenewalStaysFunded(before: Ledger, after: Ledger)
    requires Funded(before) && RenewalFollows(before, after)
    ensures Funded(after)
  {
    hide Funded, RenewBatch, RenewClaim, Backed;
    if configOid: Oid, destination: string, batch: Id, attempts: map<Id, Id>, now: Time :|
      && Backed(before.deliveries, destination) && DestinationOf(before, destination).name == destination
      && RenewBatch(before, configOid, destination, batch, attempts, now) == Next(after)
    {
      RenewBatchIsKnown(before, configOid, destination, batch, attempts, now);
      RenewBatchKeepsFunding(before, configOid, destination, batch, attempts, now);
    } else {
      var configOid: Oid, key: Id, attempt: Id, now: Time :|
        && key in before.deliveries && before.deliveries[key].destination in before.destinations
        && before.destinations[before.deliveries[key].destination].name == before.deliveries[key].destination
        && RenewClaim(before, configOid, key, attempt, now) == Next(after);
      RenewClaimKeepsFunding(before, configOid, key, attempt, now);
    }
  }

  lemma RenewBatchIsKnown(l: Ledger, configOid: Oid, destination: string, batch: Id, attempts: map<Id, Id>, now: Time)
    requires RenewBatch(l, configOid, destination, batch, attempts, now).Next?
    ensures destination in l.destinations
  {
  }

  lemma StepStaysFunded(before: Ledger, after: Ledger)
    requires Funded(before) && FundingStep(before, after)
    ensures Funded(after)
  {
    hide WorstSize, EncodedSize, ResultsStep, Named, RenewalFollows;
    if CheckCapacity(after, true) == None && StatusesRecorded(after.deliveries) {
      ReservationFunds(after);
    } else if RenewalFollows(before, after) {
      RenewalStaysFunded(before, after);
    } else {
      var destination: string, batch: Id, receipts: map<Id, Receipt>, now: Time :|
        && Named(before, destination) && batch.BatchDigest? && Affordable(before, receipts)
        && ResultsStep(before, destination, batch, receipts, now) == Next(after);
      ResultsFit(before, destination, batch, receipts, now);
    }
  }

  lemma {:induction false} RunStaysFunded(run: seq<Ledger>)
    requires FundingRun(run)
    ensures Funded(run[|run| - 1])
  {
    hide FundingStep, Funded, CheckCapacity;
    var n := |run| - 1;
    if n == 0 {
      ReservationFunds(run[0]);
    } else {
      var prefix := run[..n];
      forall i | 0 <= i < |prefix| - 1 ensures FundingStep(prefix[i], prefix[i + 1]) {
        assert FundingStep(run[i], run[i + 1]);
      }
      RunStaysFunded(prefix);
      var last := n - 1;
      assert FundingStep(run[last], run[last + 1]);
      StepStaysFunded(run[last], run[last + 1]);
    }
  }

  /**
   * Reservation soundness: after a claim that passed the reserving check, with
   * any results, renewals and rechecking steps in between, a batch's receipts
   * are never refused for lack of room.
   */
  lemma ReservedResultsAreRecorded(run: seq<Ledger>, destination: string, batch: Id, receipts: map<Id, Receipt>,
          now: Time)
    requires FundingRun(run)
    requires var l := run[|run| - 1];
             && Named(l, destination) && batch.BatchDigest? && Affordable(l, receipts)
             && ResultsStep(l, destination, batch, receipts, now).Next?
    ensures RecordResults(run[|run| - 1], destination, batch, receipts, now).Ok?
  {
    RunStaysFunded(run);
    ResultsFit(run[|run| - 1], destination, batch, receipts, now);
  }
}
