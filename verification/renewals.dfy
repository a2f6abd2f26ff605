/** The one renewal that is refused, and a run that leads up to it. */
module Renewals {
  import opened Basics
  import opened Text
  import opened Model
  import opened MapSum
  import opened Codec
  import opened Reducer
  import opened Guard
  import opened Invariant
  import opened Acceptance
  import opened Capacity
  import opened Operations
  import opened Samples

  // ----------------------------------------------------------- observations fill a ledger

  const FILLERS := 20000

  /** Request identifiers of one character, none of which the sample uses. */
  function FillId(j: nat): string
    requires j < FILLERS
  {
    [(0x4E00 + j) as char]
  }

  /** An open request whose link is n characters long. */
  function Filler(j: nat, n: nat): LifecycleRequest
    requires j < FILLERS
  {
    LifecycleRequest(REPOSITORY, "g", Request(FillId(j), Promotion, "s", "t", "", "", seq(n, _ => 'u')), Open, SECOND,
                     NEVER,
                     NO_OID, NO_OID, NO_OID, None)
  }

  const BASE := KnownEntry(FillId(0), Filler(0, 0))

  lemma {:induction false} JsonBound(s: string, n: nat)
    requires n <= |s|
    ensures n <= JsonCharsTo(s, n) <= 6 * n
  {
    if n > 0 { JsonBound(s, n - 1); }
  }

  lemma {:induction false} PlainJson(n: nat, m: nat)
    requires m <= n
    ensures JsonCharsTo(seq(n, _ => 'u'), m) == m
  {
    if m > 0 { PlainJson(n, m - 1); }
  }

  /** A filler's entry is as long as wanted. */
  lemma FillerSize(j: nat, n: nat)
    requires j < FILLERS
    ensures KnownEntry(FillId(j), Filler(j, n)) == BASE + n
  {
    hide JsonRepository;
    PlainJson(n, n);
    PlainJson(0, 0);
    assert JsonCharsTo(FillId(j), 1) == 3 && JsonCharsTo(FillId(0), 1) == 3;
  }

  lemma BaseIsSmall()
    ensures 1 <= BASE <= 900
  {
    hide JsonRepository, JsonCharsTo;
    RepositoryIsSmall();
    JsonBound("g", 1);
    JsonBound("s", 1);
    JsonBound("t", 1);
    JsonBound("promotion", 9);
    JsonBound(FillId(0), 1);
    PlainJson(0, 0);
  }

  lemma RepositoryIsSmall()
    ensures JsonRepository(REPOSITORY) <= 200
  {
    JsonBound("github", 6);
    JsonBound("h", 1);
    JsonBound("1", 1);
    JsonBound("r", 1);
  }

  lemma FillerIsValid(l: Ledger, j: nat, n: nat)
    requires Inv(l) && l.repository == REPOSITORY && l.graph == "g" && j < FILLERS && 1 <= n <= 1000
    ensures WellFormed(l, RememberOp(Filler(j, n)))
  {
    hide Inv;
    var url := seq(n, _ => 'u');
    BytesBound(url, n);
    EmptyIsGood();
    assert NoControl(FillId(j)) && BytesTo(FillId(j), 1) == 3;
  }

  predicate AllTerminal(l: Ledger) {
    forall k :: k in l.deliveries ==> Terminal(l.deliveries[k])
  }

  lemma {:induction false} NothingReserved(deliveries: map<Id, Record>)
    requires forall k :: k in deliveries ==> Terminal(deliveries[k])
    ensures Sum(deliveries, ReserveOf) == 0
    decreases |deliveries|
  {
    if deliveries != map[] {
      var k :| k in deliveries;
      SumRemove(deliveries, k, ReserveOf);
      NothingReserved(deliveries - {k});
    }
  }

  /** A ledger reached by legitimate operations, with the identifiers from j on unused and no result outstanding. */
  ghost predicate Reaches(start: Ledger, ops: seq<Op>, l: Ledger, j: nat) {
    && Inv(start) && AllWellFormed(start, ops) && PerformAll(start, ops) == Ok(l)
    && l.repository == REPOSITORY && l.graph == "g" && l.known != map[] && AllTerminal(l)
    && forall i {:trigger FillId(i)} :: j <= i < FILLERS ==> FillId(i) !in l.known
  }

  lemma RememberedSize(l: Ledger, j: nat, n: nat)
    requires l.known != map[] && j < FILLERS && FillId(j) !in l.known
    ensures EncodedSize(Remember(l, Filler(j, n))) == EncodedSize(l) + BASE + n
  {
    hide KnownEntry, DestinationEntry, RecordEntry, EventEntry, ScanEntry, JsonOverrides, JsonRepository;
    var after := Remember(l, Filler(j, n));
    SumRemove(after.known, FillId(j), KnownEntry);
    assert after.known - {FillId(j)} == l.known;
    assert |after.known| == |l.known| + 1;
    FillerSize(j, n);
  }

  /** A legitimate operation whose result fits. */
  ghost predicate Performs(l: Ledger, op: Op, after: Ledger) {
    Quiet(op) && WellFormed(l, op) && Perform(l, op) == Ok(after)
  }

  /** An observation without outstanding results succeeds when its ledger fits. */
  lemma RememberFits(l: Ledger, request: LifecycleRequest)
    requires Inv(l) && AllTerminal(l) && WellFormed(l, RememberOp(request))
    requires EncodedSize(Remember(l, request)) <= MAX_LEDGER_BYTES
    ensures Performs(l, RememberOp(request), Remember(l, request))
  {
    hide EncodedSize, Inv, WellFormed;
    NothingReserved(l.deliveries);
    CountIsBounded(l);
  }

  lemma OneMore(start: Ledger, ops: seq<Op>, l: Ledger, op: Op, after: Ledger)
    requires AllWellFormed(start, ops) && PerformAll(start, ops) == Ok(l) && Performs(l, op, after)
    ensures AllWellFormed(start, ops + [op]) && PerformAll(start, ops + [op]) == Ok(after)
  {
    hide WellFormed, Perform;
    assert (ops + [op])[..|ops|] == ops;
  }

  lemma PerformedIsGood(start: Ledger, ops: seq<Op>, l: Ledger)
    requires Inv(start) && AllWellFormed(start, ops) && PerformAll(start, ops) == Ok(l)
    ensures Inv(l)
  {
    hide Inv, PerformAll, AllWellFormed, GuardPasses;
    CompositeTransitionsPass(start, ops, NoRelation);
    PreservedIsGood(start, l);
  }

  lemma AddFiller(start: Ledger, ops: seq<Op>, l: Ledger, j: nat, n: nat)
    requires Reaches(start, ops, l, j) && j < FILLERS && 1 <= n <= 1000 && EncodedSize(l) + BASE + n <= MAX_LEDGER_BYTES
    ensures var after := Remember(l, Filler(j, n));
            Reaches(start, ops + [RememberOp(Filler(j, n))], after, j + 1)
                && EncodedSize(after) == EncodedSize(l) + BASE + n
  {
    hide EncodedSize, Inv, WellFormed, Performs, PerformAll, AllWellFormed;
    var after := Remember(l, Filler(j, n));
    PerformedIsGood(start, ops, l);
    FillerIsValid(l, j, n);
    RememberedSize(l, j, n);
    RememberFits(l, Filler(j, n));
    OneMore(start, ops, l, RememberOp(Filler(j, n)), after);
    forall i | j + 1 <= i < FILLERS ensures FillId(i) !in after.known { assert FillId(i)[0] != FillId(j)[0]; }
  }

  /** The last one or two observations, up to the last byte. */
  lemma FillUp(start: Ledger, ops: seq<Op>, l: Ledger, j: nat) returns (more: seq<Op>, full: Ledger)
    requires Reaches(start, ops, l, j) && j + 2 <= FILLERS
    requires BASE + 1 <= MAX_LEDGER_BYTES - EncodedSize(l) <= 2 * BASE + 1001
    ensures Reaches(start, more, full, j + 2) && EncodedSize(full) == MAX_LEDGER_BYTES
    ensures full == l.(known := full.known)
  {
    hide EncodedSize, Reaches, Filler, KnownEntry;
    BaseIsSmall();
    more, full := ops, l;
    var next := j;
    if MAX_LEDGER_BYTES - EncodedSize(l) > BASE + 1000 {
      AddFiller(start, more, full, next, 1);
      more, full, next := more + [RememberOp(Filler(next, 1))], Remember(full, Filler(next, 1)), next + 1;
    }
    var n := MAX_LEDGER_BYTES - EncodedSize(full) - BASE;
    AddFiller(start, more, full, next, n);
    more, full, next := more + [RememberOp(Filler(next, n))], Remember(full, Filler(next, n)), next + 1;
    FewerUnused(start, more, full, next, j + 2);
  }

  lemma FewerUnused(start: Ledger, ops: seq<Op>, l: Ledger, j: nat, k: nat)
    requires Reaches(start, ops, l, j) && j <= k
    ensures Reaches(start, ops, l, k)
  {
  }

  /** Observations alone can fill a ledger to the last byte. */
  lemma {:induction false} Fill(start: Ledger, ops: seq<Op>, l: Ledger, j: nat) returns (more: seq<Op>, full: Ledger)
    requires Reaches(start, ops, l, j) && BASE + 1 <= MAX_LEDGER_BYTES - EncodedSize(l)
    requires j + (MAX_LEDGER_BYTES - EncodedSize(l)) / 1000 + 2 <= FILLERS
    ensures exists k :: Reaches(start, more, full, k)
    ensures EncodedSize(full) == MAX_LEDGER_BYTES && full == l.(known := full.known)
    decreases MAX_LEDGER_BYTES - EncodedSize(l)
  {
    hide EncodedSize, Reaches, Filler, KnownEntry;
    BaseIsSmall();
    if MAX_LEDGER_BYTES - EncodedSize(l) <= 2 * BASE + 1001 {
      more, full := FillUp(start, ops, l, j);
    } else {
      AddFiller(start, ops, l, j, 1000);
      more, full := Fill(start, ops + [RememberOp(Filler(j, 1000))], Remember(l, Filler(j, 1000)), j + 1);
    }
  }

  // ------------------------------------------------------------------- a batch with nothing left

  function TheEvent(): Event {
    PromotionEvent(RequestMerged, 2000 * SECOND, 2100 * SECOND)
  }

  function TheSubscriptions(): map<SubKey, Subscription> {
    map[PromotionKey(RequestMerged) := Subscription(RequestMerged, Promotion, 1000 * SECOND)]
  }

  function Key(): Id {
    TheKey(TheEvent())
  }

  function Batch(run: string): Id {
    BatchDigest(run, "d")
  }

  function Attempt(run: string): Id {
    AttemptDigest(run, Key())
  }

  /** The sample ledger with one delivery, at any point of its life. */
  function Owing(lease: Lease, nextSendAt: Time, r: Record): Ledger {
    Created([RequestMerged], 1000 * SECOND).(
      events := map[TheEvent().id := TheEvent()],
      destinations :=
          map["d" := TheDestination(1000 * SECOND, TheSubscriptions()).(lease := lease, nextSendAt := nextSendAt)],
      deliveries := map[Key() := r])
  }

  function Admitted(): Record {
    FreshRecord(TheEvent(), "d", TheDestination(1000 * SECOND, TheSubscriptions()))
  }

  const MESSAGE := Message("t", "b")

  function Saved(): Record {
    Admitted().(message := Some(MESSAGE))
  }

  function ClaimedOnce(): Record {
    ClaimedRecord(Saved(), Attempt("1"), 3000 * SECOND)
  }

  function ClaimedTwice(): Record {
    ClaimedRecord(ClaimedOnce(), Attempt("2"), 4000 * SECOND)
  }

  const ACCEPTED := AttemptResult(Accepted, 0, 200)

  function LateAccepted(): Record {
    SettledRecord(ClaimedTwice(), ACCEPTED, 4010 * SECOND)
  }

  function FirstLease(): Lease {
    Lease(Batch("1"), 3120 * SECOND)
  }

  function SecondLease(): Lease {
    Lease(Batch("2"), 4120 * SECOND)
  }

  lemma SumOfOne<K, V>(k: K, v: V, weight: (K, V) -> nat)
    ensures Sum(map[k := v], weight) == weight(k, v)
  {
    SumRemove(map[k := v], k, weight);
    assert map[k := v] - {k} == map[];
  }

  /** What the sample's records have in common, as far as their size goes. */
  predicate SmallRecord(r: Record) {
    && r.eventId == TheEvent().id && r.destination == "d" && IdLength(r.generation) == 64 && !r.generation.Plain?
    && 0 <= r.attempts <= 2 && |r.attemptIds| <= 2 && (forall a :: a in r.attemptIds ==> a.AttemptDigest?)
    && (r.message.Some? ==> r.message.value == MESSAGE) && StatusRecorded(r)
          && (r.lease.attemptId == NO_ID || r.lease.attemptId.AttemptDigest?)
  }

  lemma {:induction false} AttemptsAreShort(ids: seq<Id>)
    requires forall a :: a in ids ==> a.AttemptDigest?
    ensures JsonIds(ids) <= 67 * |ids|
  {
    if ids != [] {
      assert ids[0] in ids && forall a :: a in ids[1..] ==> a in ids;
      AttemptsAreShort(ids[1..]);
    }
  }

  lemma SmallCore(r: Record)
    requires SmallRecord(r)
    ensures RecordCore(Key(), r) <= 1000
  {
    hide JsonCharsTo, TheEvent;
    IdsAreDigests();
    AttemptsAreShort(r.attemptIds);
    JsonBound("d", 1);
    JsonBound("t", 1);
    JsonBound("b", 1);
  }

  lemma IdsAreDigests()
    ensures TheEvent().id.EventDigest? && Key().DeliveryDigest?
  {
  }

  lemma SmallMeta(r: Record)
    requires SmallRecord(r)
    ensures RecordMeta(r) <= 1000
  {
    hide JsonTime, CodeLen, StatusLen, LastStatusLen;
    LastStatusIsShort(r.lastStatus);
    assert JsonId(r.lease.attemptId) <= 66;
  }

  lemma SmallRecordIsSmall(r: Record)
    requires SmallRecord(r)
    ensures RecordEntry(Key(), r) <= 2000
  {
    hide RecordCore, RecordMeta;
    SmallCore(r);
    SmallMeta(r);
  }

  lemma EventIsSmall()
    ensures EventEntry(TheEvent().id, TheEvent()) <= 2000
  {
    hide JsonCharsTo, JsonRepository, JsonTime;
    RepositoryIsSmall();
    JsonBound("g", 1);
    JsonBound("s", 1);
    JsonBound("t", 1);
    JsonBound("7", 1);
    JsonBound("u", 1);
    JsonBound("", 0);
    JsonBound("promotion", 9);
    JsonBound("request-merged", 14);
  }

  lemma DestinationIsSmall(lease: Lease, nextSendAt: Time)
    requires lease.attemptId == NO_ID || lease.attemptId.BatchDigest?
    ensures DestinationEntry("d", TheDestination(1000 * SECOND, TheSubscriptions()).(
                                    lease := lease, nextSendAt := nextSendAt)) <= 2000
  {
    hide JsonCharsTo, JsonTime, SubscriptionEntry;
    JsonBound("d", 1);
    JsonBound("", 0);
    SubscriptionIsSmall();
    SumOfOne(PromotionKey(RequestMerged), Subscription(RequestMerged, Promotion, 1000 * SECOND), SubscriptionEntry);
    assert JsonId(lease.attemptId) <= 66;
  }

  lemma SubscriptionIsSmall()
    ensures SubscriptionEntry(PromotionKey(RequestMerged), Subscription(RequestMerged, Promotion, 1000 * SECOND)) <= 500
  {
    hide JsonCharsTo, JsonTime;
    JsonBound("promotion", 9);
    JsonBound("request-merged", 14);
  }

  lemma ScalarsAreSmall(l: Ledger)
    requires l.version == SCHEMA_VERSION && l.repository == REPOSITORY && l.graph == "g" && l.anchorOid == Hex('a')
    requires l.policy == Revision('a') && l.overrides == []
    ensures ScalarSize(l) <= 2000
  {
    hide JsonCharsTo, JsonRepository;
    RepositoryIsSmall();
    JsonBound("g", 1);
    JsonBound(Hex('a'), 40);
  }

  /** Everything of the sample ledger but its destination and delivery. */
  predicate Frame(l: Ledger) {
    && l.version == SCHEMA_VERSION && l.repository == REPOSITORY && l.graph == "g" && l.anchorOid == Hex('a')
    && l.policy == Revision('a') && l.overrides == [] && l.known == map[] && l.scans == map[]
  }

  lemma OwingFrame(lease: Lease, nextSendAt: Time, r: Record)
    ensures Frame(Owing(lease, nextSendAt, r))
  {
    hide Inv, AcceptStep, AcceptedLedger, TheDestination, TheSubscriptions, TheEvent;
    CreatedIsGood([RequestMerged], 1000 * SECOND);
  }

  /** The sample ledgers are far from full. */
  lemma OwingIsSmall(lease: Lease, nextSendAt: Time, r: Record)
    requires SmallRecord(r) && (lease.attemptId == NO_ID || lease.attemptId.BatchDigest?)
    ensures EncodedSize(Owing(lease, nextSendAt, r)) <= 10000
    ensures CheckCapacity(Owing(lease, nextSendAt, r), true) == None
  {
    hide Created, ScalarSize, EventEntry, DestinationEntry, RecordEntry, SmallRecord, TheDestination, TheEvent;
    hide TheSubscriptions;
    OwingFrame(lease, nextSendAt, r);
    ScalarsAreSmall(Owing(lease, nextSendAt, r));
    EventIsSmall();
    DestinationIsSmall(lease, nextSendAt);
    SmallRecordIsSmall(r);
    SumOfOne(TheEvent().id, TheEvent(), EventEntry);
    SumOfOne("d", TheDestination(1000 * SECOND, TheSubscriptions()).(lease := lease, nextSendAt := nextSendAt),
             DestinationEntry);
    SumOfOne(Key(), r, RecordEntry);
    SumOfOne(Key(), r, ReserveOf);
    assert |map[Key() := r]| == 1;
  }

  lemma Charged(l: Ledger, op: Op, after: Ledger)
    requires StepOf(l, op) == Next(after) && CheckCapacity(after, true) == None && !Renewal(op) && Quiet(op)
    requires WellFormed(l, op)
    ensures Performs(l, op, after)
  {
    hide StepOf, EncodedSize, WellFormed;
  }

  /** A step to a sample ledger is charged for next to nothing. */
  lemma SmallStep(l: Ledger, op: Op, lease: Lease, nextSendAt: Time, r: Record)
    requires StepOf(l, op) == Next(Owing(lease, nextSendAt, r)) && !Renewal(op) && Quiet(op) && WellFormed(l, op)
    requires SmallRecord(r) && (lease.attemptId == NO_ID || lease.attemptId.BatchDigest?)
    ensures Performs(l, op, Owing(lease, nextSendAt, r))
  {
    hide StepOf, WellFormed, Performs, SmallRecord, Owing, CheckCapacity;
    OwingIsSmall(lease, nextSendAt, r);
    Charged(l, op, Owing(lease, nextSendAt, r));
  }

  lemma StartParts()
    ensures var l := Created([RequestMerged], 1000 * SECOND);
            && l.destinations == map["d" := TheDestination(1000 * SECOND, TheSubscriptions())]
            && l.deliveries == map[] && l.events == map[] && Frame(l)
  {
    hide Inv, AcceptStep, AcceptedLedger, TheDestination;
    CreatedIsGood([RequestMerged], 1000 * SECOND);
    assert AcceptSubscriptions(map[], Notify([RequestMerged]), 1000 * SECOND) == TheSubscriptions();
  }

  lemma AdmitFirst()
    ensures Performs(Created([RequestMerged], 1000 * SECOND), AdmitOp(Hex('a'), TheEvent()),
                     Owing(NO_LEASE, NEVER, Admitted()))
  {
    hide Created, CheckCapacity, StepOf, Performs, RunStep, Owing, AdmittedLedger, TheDestination, TheSubscriptions,
          SmallRecord, Admitted, Hex;
    var l := Created([RequestMerged], 1000 * SECOND);
    FirstStep(l);
    AdmittedIsOwing(l);
    SavedIsSmall();
    SmallStep(l, AdmitOp(Hex('a'), TheEvent()), NO_LEASE, NEVER, Admitted());
  }

  lemma FirstStep(l: Ledger)
    requires l == Created([RequestMerged], 1000 * SECOND)
    ensures StepOf(l, AdmitOp(Hex('a'), TheEvent())) == Next(AdmittedLedger(l, TheEvent()))
    ensures WellFormed(l, AdmitOp(Hex('a'), TheEvent()))
  {
    hide Created, AdmittedLedger, ValidEvent, TheDestination, StepOf, Hex;
    StartParts();
    EventIsValid(RequestMerged, 2000 * SECOND, 2100 * SECOND);
    AdmittingIsStep(l, 'a', RequestMerged, 2000 * SECOND, 2100 * SECOND, 1000 * SECOND, TheSubscriptions());
  }

  lemma AdmittedIsOwing(l: Ledger)
    requires l == Created([RequestMerged], 1000 * SECOND)
    ensures AdmittedLedger(l, TheEvent()) == Owing(NO_LEASE, NEVER, Admitted())
  {
    hide Created, AdmittedLedger;
    StartParts();
    AdmitOne(l, TheEvent(), 1000 * SECOND, TheSubscriptions());
  }

  lemma SaveSteps(l: Ledger)
    requires l == Owing(NO_LEASE, NEVER, Admitted())
    ensures StepOf(l, SaveOp(Hex('a'), Key(), MESSAGE)) == Next(Owing(NO_LEASE, NEVER, Saved()))
              && WellFormed(l, SaveOp(Hex('a'), Key(), MESSAGE))
  {
    hide Created, TheDestination, TheEvent, TheSubscriptions, Hex;
    OwingFrame(NO_LEASE, NEVER, Admitted());
    assert BytesTo("b", 1) == 1;
    assert map[Key() := Admitted()][Key() := Saved()] == map[Key() := Saved()];
  }

  lemma SaveFirst()
    ensures Performs(Owing(NO_LEASE, NEVER, Admitted()), SaveOp(Hex('a'), Key(), MESSAGE),
                     Owing(NO_LEASE, NEVER, Saved()))
  {
    hide Owing, CheckCapacity, Performs, StepOf, WellFormed, SmallRecord, Admitted, Saved, Hex, Key;
    SaveSteps(Owing(NO_LEASE, NEVER, Admitted()));
    SavedIsSmall();
    SmallStep(Owing(NO_LEASE, NEVER, Admitted()), SaveOp(Hex('a'), Key(), MESSAGE), NO_LEASE, NEVER, Saved());
  }

  lemma SavedIsSmall()
    ensures SmallRecord(Admitted()) && SmallRecord(Saved()) && SmallRecord(ClaimedOnce())
              && SmallRecord(ClaimedTwice()) && SmallRecord(LateAccepted())
  {
  }

  predicate Claimable(r: Record, run: string, now: Time) {
    && !Terminal(r) && r.destination == "d" && r.generation == TheDestination(NEVER, map[]).generation
    && r.eventId == TheEvent().id
    && r.message.Some? && r.nextAttemptAt <= now && r.lease.until <= now && Attempt(run) !in r.attemptIds
  }

  lemma BothClaimable()
    ensures Claimable(Saved(), "1", 3000 * SECOND) && Claimable(ClaimedOnce(), "2", 4000 * SECOND)
  {
  }

  lemma EventFacts()
    ensures EventKey(TheEvent()) == PromotionKey(RequestMerged)
    ensures TheEvent().id == EventId(REPOSITORY, "7", RequestMerged)
  {
  }

  /** A free destination gives the batch a due record. */
  lemma ClaimDue(lease: Lease, nextSendAt: Time, r: Record, run: string, now: Time)
    requires Claimable(r, run, now) && lease.until <= now && nextSendAt <= now && now != NEVER
    ensures StepOf(Owing(lease, nextSendAt, r), Claiming(run, now))
            == Next(Owing(Lease(Batch(run), now + CLAIM_DURATION), now + SECOND, ClaimedRecord(r, Attempt(run), now)))
    ensures WellFormed(Owing(lease, nextSendAt, r), Claiming(run, now))
  {
    hide Created, TheEvent, Hex;
    var l := Owing(lease, nextSendAt, r);
    OwingFrame(lease, nextSendAt, r);
    EventFacts();
    var d := l.destinations["d"];
    var attempts := map[Key() := Attempt(run)];
    assert [Key()][..0] == [];
    assert ClaimKeys(l, d, "d", [Key()][..0], attempts, now) == Ok(Claims(l.deliveries, []));
    assert BatchKeyDue(l, d, r, now);
    assert map[Key() := r][Key() := ClaimedRecord(r, Attempt(run), now)]
           == map[Key() := ClaimedRecord(r, Attempt(run), now)];
  }

  function Claiming(run: string, now: Time): Op {
    ClaimBatchOp(Hex('a'), "d", Batch(run), [Key()], map[Key() := Attempt(run)], now)
  }

  lemma ClaimFirst()
    ensures Performs(Owing(NO_LEASE, NEVER, Saved()), Claiming("1", 3000 * SECOND),
                     Owing(FirstLease(), 3001 * SECOND, ClaimedOnce()))
  {
    hide Owing, CheckCapacity, StepOf, WellFormed, Performs, SmallRecord, Claimable, ClaimedRecord, Saved, Key, Attempt;
    hide Hex;
    SavedIsSmall();
    BothClaimable();
    ClaimDue(NO_LEASE, NEVER, Saved(), "1", 3000 * SECOND);
    SmallStep(Owing(NO_LEASE, NEVER, Saved()), Claiming("1", 3000 * SECOND), FirstLease(), 3001 * SECOND,
              ClaimedOnce());
  }

  lemma ClaimSecond()
    ensures Performs(Owing(FirstLease(), 3001 * SECOND, ClaimedOnce()), Claiming("2", 4000 * SECOND),
              Owing(SecondLease(), 4001 * SECOND, ClaimedTwice()))
  {
    hide Owing, CheckCapacity, StepOf, WellFormed, Performs, SmallRecord, Claimable, ClaimedRecord, ClaimedOnce, Key;
    hide Attempt, Hex;
    SavedIsSmall();
    BothClaimable();
    ClaimDue(FirstLease(), 3001 * SECOND, ClaimedOnce(), "2", 4000 * SECOND);
    SmallStep(Owing(FirstLease(), 3001 * SECOND, ClaimedOnce()), Claiming("2", 4000 * SECOND), SecondLease(),
          4001 * SECOND, ClaimedTwice());
  }

  /** The first batch's acceptance arrives while the second batch holds the destination. */
  function LateResult(): Op {
    ResultsOp("d", Batch("1"), LateReceipts(), 4010 * SECOND)
  }

  function LateReceipts(): map<Id, Receipt> {
    map[Key() := Receipt(Attempt("1"), ACCEPTED)]
  }

  /** It settles the record and leaves the second batch its lease. */
  lemma LateSettles(l: Ledger)
    requires l == Owing(SecondLease(), 4001 * SECOND, ClaimedTwice())
    ensures SettleAll(l, "d", LateReceipts(), 4010 * SECOND) == Owing(SecondLease(), 4001 * SECOND, LateAccepted())
  {
    hide Created, TheEvent, TheSubscriptions, Hex, SettledRecord;
    assert !Held(l, "d", LateReceipts());
    var after := SettleAll(l, "d", LateReceipts(), 4010 * SECOND);
    assert ReceiptSettles(l, Key(), LateReceipts()[Key()]);
    assert after.deliveries == map[Key() := LateAccepted()];
  }

  lemma LateSteps(l: Ledger)
    requires l == Owing(SecondLease(), 4001 * SECOND, ClaimedTwice())
    ensures StepOf(l, LateResult()) == Next(Owing(SecondLease(), 4001 * SECOND, LateAccepted()))
  {
    hide Created, TheEvent, TheSubscriptions, Hex, SettleAll;
    LateSettles(l);
    assert Attempt("1") == ClaimedTwice().attemptIds[0];
    assert !BadReceipt(l, "d", Key(), LateReceipts()[Key()], 4010 * SECOND);
  }

  lemma AcceptLate()
    ensures Performs(Owing(SecondLease(), 4001 * SECOND, ClaimedTwice()), LateResult(),
                     Owing(SecondLease(), 4001 * SECOND, LateAccepted()))
  {
    hide Owing, CheckCapacity, StepOf, Performs, SmallRecord, ClaimedTwice, LateAccepted, LateReceipts, Key, Attempt;
    hide Hex;
    SavedIsSmall();
    LateSteps(Owing(SecondLease(), 4001 * SECOND, ClaimedTwice()));
    SmallStep(Owing(SecondLease(), 4001 * SECOND, ClaimedTwice()), LateResult(), SecondLease(), 4001 * SECOND,
              LateAccepted());
  }

  // ----------------------------------------------------------------- the refused renewal

  const THE_FILLER := Filler(0, 1)

  function BeforeFilling(): Ledger {
    Remember(Owing(SecondLease(), 4001 * SECOND, LateAccepted()), THE_FILLER)
  }

  function FirstOps(): seq<Op> {
    [AdmitOp(Hex('a'), TheEvent())] + [SaveOp(Hex('a'), Key(), MESSAGE)] + [Claiming("1", 3000 * SECOND)]
    + [Claiming("2", 4000 * SECOND)] + [LateResult()]
  }

  lemma FirstOpsPerform(start: Ledger)
    requires start == Created([RequestMerged], 1000 * SECOND)
    ensures AllWellFormed(start, FirstOps())
    ensures PerformAll(start, FirstOps()) == Ok(Owing(SecondLease(), 4001 * SECOND, LateAccepted()))
  {
    hide Created, Owing, Performs, WellFormed, Perform, TheEvent, Key, Hex, Claiming, LateResult;
    var ops: seq<Op> := [];
    AdmitFirst();
    OneMore(start, ops, start, AdmitOp(Hex('a'), TheEvent()), Owing(NO_LEASE, NEVER, Admitted()));
    ops := ops + [AdmitOp(Hex('a'), TheEvent())];
    SaveFirst();
    OneMore(start, ops, Owing(NO_LEASE, NEVER, Admitted()), SaveOp(Hex('a'), Key(), MESSAGE),
            Owing(NO_LEASE, NEVER, Saved()));
    ops := ops + [SaveOp(Hex('a'), Key(), MESSAGE)];
    ClaimFirst();
    OneMore(start, ops, Owing(NO_LEASE, NEVER, Saved()), Claiming("1", 3000 * SECOND),
            Owing(FirstLease(), 3001 * SECOND, ClaimedOnce()));
    ops := ops + [Claiming("1", 3000 * SECOND)];
    ClaimSecond();
    OneMore(start, ops, Owing(FirstLease(), 3001 * SECOND, ClaimedOnce()), Claiming("2", 4000 * SECOND),
          Owing(SecondLease(), 4001 * SECOND, ClaimedTwice()));
    ops := ops + [Claiming("2", 4000 * SECOND)];
    AcceptLate();
    OneMore(start, ops, Owing(SecondLease(), 4001 * SECOND, ClaimedTwice()), LateResult(),
          Owing(SecondLease(), 4001 * SECOND, LateAccepted()));
    ops := ops + [LateResult()];
    assert ops == FirstOps();
  }

  lemma FirstRemembered(l: Ledger)
    requires l.known == map[]
    ensures EncodedSize(Remember(l, THE_FILLER)) <= EncodedSize(l) + BASE + 1
  {
    hide KnownEntry, DestinationEntry, RecordEntry, EventEntry, ScanEntry, JsonOverrides, JsonRepository;
    FillerSize(0, 1);
    assert Remember(l, THE_FILLER).known == map[FillId(0) := THE_FILLER];
    SumOfOne(FillId(0), THE_FILLER, KnownEntry);
  }

  lemma FirstFiller(start: Ledger, ops: seq<Op>, l: Ledger)
    requires Inv(start) && AllWellFormed(start, ops) && PerformAll(start, ops) == Ok(l)
    requires Frame(l) && AllTerminal(l) && EncodedSize(l) <= 10000
    ensures Reaches(start, ops + [RememberOp(THE_FILLER)], Remember(l, THE_FILLER), 1)
    ensures EncodedSize(Remember(l, THE_FILLER)) <= 11000
  {
    hide Performs, WellFormed, EncodedSize, PerformAll, AllWellFormed, Inv, Filler, Reaches;
    FirstRemembered(l);
    BaseIsSmall();
    PerformedIsGood(start, ops, l);
    FillerIsValid(l, 0, 1);
    RememberFits(l, THE_FILLER);
    OneMore(start, ops, l, RememberOp(THE_FILLER), Remember(l, THE_FILLER));
    FirstReaches(start, ops + [RememberOp(THE_FILLER)], l);
  }

  lemma FirstReaches(start: Ledger, ops: seq<Op>, l: Ledger)
    requires Inv(start) && AllWellFormed(start, ops) && PerformAll(start, ops) == Ok(Remember(l, THE_FILLER))
    requires Frame(l) && AllTerminal(l)
    ensures Reaches(start, ops, Remember(l, THE_FILLER), 1)
  {
    hide Inv, AllWellFormed, PerformAll;
    forall i | 1 <= i < FILLERS
      ensures FillId(i) !in Remember(l, THE_FILLER).known
    {
      assert FillId(i)[0] != FillId(0)[0];
    }
    assert FillId(0) in Remember(l, THE_FILLER).known;
  }

  lemma StartFilling(start: Ledger)
    requires start == Created([RequestMerged], 1000 * SECOND)
    ensures Reaches(start, FirstOps() + [RememberOp(THE_FILLER)], BeforeFilling(), 1)
    ensures EncodedSize(BeforeFilling()) <= 11000
  {
    hide Created, EncodedSize, PerformAll, AllWellFormed, Inv, FirstOps, LateAccepted, CheckCapacity, Reaches, Frame,
          SmallRecord, Filler, AcceptStep;
    CreatedIsGood([RequestMerged], 1000 * SECOND);
    FirstOpsPerform(start);
    OwingFrame(SecondLease(), 4001 * SECOND, LateAccepted());
    SavedIsSmall();
    OwingIsSmall(SecondLease(), 4001 * SECOND, LateAccepted());
    LateIsTerminal();
    FirstFiller(start, FirstOps(), Owing(SecondLease(), 4001 * SECOND, LateAccepted()));
  }

  lemma LateIsTerminal()
    ensures Terminal(LateAccepted())
  {
  }

  /** The second batch renews a nanosecond past the second: its longer instant needs ten more bytes. */
  function Renewing(): Op {
    RenewBatchOp(Hex('a'), "d", Batch("2"), map[Key() := Attempt("2")], 4020 * SECOND + 1)
  }

  lemma InstantsGrow()
    ensures JsonTime(4020 * SECOND + 1 + CLAIM_DURATION) == 32 && JsonTime(4120 * SECOND) == 22
  {
    assert (4020 * SECOND + 1 + CLAIM_DURATION) % SECOND == 1;
  }

  /** The parts of the full ledger the renewal reads. */
  predicate HeldWithNothingOpen(l: Ledger) {
    && l.policy == Revision('a') && AllTerminal(l) && StatusRecordedAll(l)
    && l.destinations == map["d" := TheDestination(1000 * SECOND, TheSubscriptions()).(
                                      lease := SecondLease(), nextSendAt := 4001 * SECOND)]
  }

  predicate StatusRecordedAll(l: Ledger) {
    forall k {:trigger l.deliveries[k]} :: k in l.deliveries ==> StatusRecorded(l.deliveries[k])
  }

  lemma RenewalStepsHere(l: Ledger)
    requires HeldWithNothingOpen(l)
    ensures StepOf(l, Renewing()).Next? && !Backed(l.deliveries, "d") && Generations(l.destinations)
              && l.destinations["d"].lease == SecondLease()
  {
    hide Key, Hex;
  }

  lemma FullRefuses(l: Ledger)
    requires Inv(l) && HeldWithNothingOpen(l) && EncodedSize(l) == MAX_LEDGER_BYTES
    ensures StepOf(l, Renewing()).Next?
    ensures CommitError(Some(l), StepOf(l, Renewing()).ledger, l.repository, l.graph, RelationOf(Renewing()))
            == Some(CapacityExhausted)
  {
    hide EncodedSize, Inv, CommitError, StepOf, Generations, Funded, Backed;
    RenewalStepsHere(l);
    NothingReserved(l.deliveries);
    CountIsBounded(l);
    ReservationFunds(l);
    InstantsGrow();
    RenewalsCommitExactly(l, Renewing());
  }

  /**
   * From a first activation legitimate operations, each of them within its
   * bounds, lead to a ledger in which a batch may still renew its lease but the
   * store has no room for the longer instant: the batch's only record was
   * delivered by its predecessor's late acceptance, and observations took up
   * the rest of the room.
   */
  lemma RenewalIsRefused() returns (ops: seq<Op>)
    ensures AcceptStep(EMPTY, Revision('a'), Some([Notify([RequestMerged])]), 1000 * SECOND,
                       Evidence(NO_OID, Hex('a'), NoRelation), false)
            == Next(Created([RequestMerged], 1000 * SECOND))
    ensures var start := Created([RequestMerged], 1000 * SECOND);
            Inv(start) && AllWellFormed(start, ops) && PerformAll(start, ops).Ok?
    ensures var l := PerformAll(Created([RequestMerged], 1000 * SECOND), ops).value;
            && StepOf(l, Renewing()).Next?
            && CommitError(Some(l), StepOf(l, Renewing()).ledger, l.repository, l.graph, RelationOf(Renewing()))
               == Some(CapacityExhausted)
  {
    hide Created, EncodedSize, PerformAll, AllWellFormed, Inv, FirstOps, AcceptStep, CommitError, StepOf,
          HeldWithNothingOpen, KnownEntry, Filler;
    var start := Created([RequestMerged], 1000 * SECOND);
    CreatedIsGood([RequestMerged], 1000 * SECOND);
    StartFilling(start);
    BaseIsSmall();
    var full: Ledger;
    ops, full := Fill(start, FirstOps() + [RememberOp(THE_FILLER)], BeforeFilling(), 1);
    PerformedIsGood(start, ops, full);
    FilledIsHeld(full);
    FullRefuses(full);
  }

  lemma FilledIsHeld(full: Ledger)
    requires full == BeforeFilling().(known := full.known)
    ensures HeldWithNothingOpen(full)
  {
    hide Created, TheDestination, TheSubscriptions, TheEvent, Filler;
    OwingFrame(SecondLease(), 4001 * SECOND, LateAccepted());
  }
}
