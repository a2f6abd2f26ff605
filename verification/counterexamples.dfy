/** Inputs on which a tempting property fails; each stands beside the lemma that says exactly when it holds. */
module Counterexamples {
  import opened Basics
  import opened Text
  import opened Model
  import opened Codec
  import opened Reducer
  import opened Invariant
  import opened Agreement
  import opened Admission
  import opened Acceptance
  import opened Operations
  import opened Creation
  import opened Timeliness
  import opened Samples

  // --------------------------------------------------------------- cutoffs move back

  const MERGED := PromotionKey(RequestMerged)
  const OPENED := PromotionKey(RequestCreated)

  function Dropped(): Ledger {
    AcceptedLedger(Created([RequestMerged], 1000 * SECOND), Revision('b'), [Notify([RequestCreated])], 1500 * SECOND)
  }

  function Retaken(): Ledger {
    AcceptedLedger(Dropped(), Revision('c'), [Notify([RequestMerged])], 500 * SECOND)
  }

  /**
   * A subscription dropped and taken up again on a stale clock: the destination
   * carries on throughout, with one generation, and the cutoff goes from 1000
   * seconds back to 500.
   */
  lemma DroppedCutoffComesBackEarlier()
    ensures var run := [Created([RequestMerged], 1000 * SECOND), Dropped(), Retaken()];
            && StepsRun(run, [Accepting('a', 'b', [RequestCreated], 1500 * SECOND),
                              Accepting('b', 'c', [RequestMerged], 500 * SECOND)])
            && (forall i :: 0 <= i < 3 ==> "d" in run[i].destinations && run[i].destinations["d"].active)
            && run[2].destinations["d"].generation == run[0].destinations["d"].generation
            && MERGED in run[0].destinations["d"].subscriptions
            && run[0].destinations["d"].subscriptions[MERGED].cutoff == 1000 * SECOND
            && MERGED in run[2].destinations["d"].subscriptions
            && run[2].destinations["d"].subscriptions[MERGED].cutoff == 500 * SECOND
  {
    hide AcceptedLedger, Inv, RunStep, Accepting;
    var first := AcceptSubscriptions(map[], Notify([RequestMerged]), 1000 * SECOND);
    var second := AcceptSubscriptions(first, Notify([RequestCreated]), 1500 * SECOND);
    CreatedIsGood([RequestMerged], 1000 * SECOND);
    AcceptingIsStep(Created([RequestMerged], 1000 * SECOND), 'a', 'b', [RequestCreated], 1500 * SECOND, 1000 * SECOND,
                    first);
    AcceptingIsStep(Dropped(), 'b', 'c', [RequestMerged], 500 * SECOND, 1000 * SECOND, second);
    assert MERGED !in second;
  }

  // ------------------------------------------------- a delivery older than its activation

  /** A subscription to opened requests, added on a clock 1500 seconds behind the activation. */
  function Widened(): Ledger {
    AcceptedLedger(Created([RequestMerged], 2000 * SECOND), Revision('b'), [Notify([RequestMerged, RequestCreated])],
                   500 * SECOND)
  }

  function OpenedAt600(): Event {
    PromotionEvent(RequestCreated, 600 * SECOND, 700 * SECOND)
  }

  function AdmittedEarly(): Ledger {
    AdmittedLedger(Widened(), OpenedAt600())
  }

  /** Some open delivery is about to be sent for an event a second or more before its destination's activation. */
  ghost predicate OwesEarlierEvent(l: Ledger) {
    exists k :: k in l.deliveries && !Terminal(l.deliveries[k]) && Routed(l.destinations, l.events, l.deliveries[k])
                && l.events[l.deliveries[k].eventId].occurredAt + SECOND
                   <= l.destinations[l.deliveries[k].destination].activatedAt
  }

  /** The stale addition lets in an event from 1400 seconds before the destination was activated. */
  lemma StaleAdditionAdmitsEarlierEvents()
    ensures StepsRun([Created([RequestMerged], 2000 * SECOND), Widened(), AdmittedEarly()],
                     [Accepting('a', 'b', [RequestMerged, RequestCreated], 500 * SECOND),
                      AdmitOp(Hex('b'), OpenedAt600())])
    ensures OwesEarlierEvent(AdmittedEarly()) && !Timely(AdmittedEarly())
  {
    hide AcceptedLedger, Inv, RunStep, Accepting, OwesEarlierEvent, AdmittedLedger, AcceptSubscriptions, Timely;
    hide TheDestination;
    var first := AcceptSubscriptions(map[], Notify([RequestMerged]), 2000 * SECOND);
    CreatedIsGood([RequestMerged], 2000 * SECOND);
    AcceptingIsStep(Created([RequestMerged], 2000 * SECOND), 'a', 'b', [RequestMerged, RequestCreated], 500 * SECOND,
                    2000 * SECOND, first);
    var second := AcceptSubscriptions(first, Notify([RequestMerged, RequestCreated]), 500 * SECOND);
    NewSubscription(first);
    AdmittingIsStep(Widened(), 'b', RequestCreated, 600 * SECOND, 700 * SECOND, 2000 * SECOND, second);
    EarlierIsOwed(Widened(), second);
  }

  lemma EarlierIsOwed(l: Ledger, subscriptions: map<SubKey, Subscription>)
    requires l.destinations == map["d" := TheDestination(2000 * SECOND, subscriptions)]
    requires l.known == map[] && l.deliveries == map[] && l.events == map[]
    requires OPENED in subscriptions && subscriptions[OPENED].cutoff <= 600 * SECOND
    ensures OwesEarlierEvent(AdmittedLedger(l, OpenedAt600())) && !Timely(AdmittedLedger(l, OpenedAt600()))
  {
    hide AdmittedLedger;
    AdmitOne(l, OpenedAt600(), 2000 * SECOND, subscriptions);
    var after := AdmittedLedger(l, OpenedAt600());
    var k := TheKey(OpenedAt600());
    assert k in after.deliveries && Routed(after.destinations, after.events, after.deliveries[k]);
    assert !TimelyRecord(after.deliveries[k], after.destinations, after.events);
  }

  lemma NewSubscription(first: map<SubKey, Subscription>)
    requires first == AcceptSubscriptions(map[], Notify([RequestMerged]), 2000 * SECOND)
    ensures var second := AcceptSubscriptions(first, Notify([RequestMerged, RequestCreated]), 500 * SECOND);
            OPENED in second && second[OPENED].cutoff == 500 * SECOND
  {
    assert OPENED !in first;
  }

  // ------------------------------------------------------- an attempt without its message

  function MergedAt2000(): Event {
    PromotionEvent(RequestMerged, 2000 * SECOND, 2100 * SECOND)
  }

  function TheAttempt(): Id {
    AttemptDigest("1", TheKey(MergedAt2000()))
  }

  /** An attempt that failed once, on a record whose message is missing. */
  function Unmessaged(): Record {
    FreshRecord(MergedAt2000(), "d", TheDestination(NEVER, map[])).(
      status := Retryable, attempts := 1, attemptIds := [TheAttempt()], nextAttemptAt := 2500 * SECOND, code := Network)
  }

  function WithUnmessaged(): Ledger {
    var e := MergedAt2000();
    Created([RequestMerged], 1000 * SECOND).(events := map[e.id := e], deliveries := map[TheKey(e) := Unmessaged()])
  }

  lemma AddedIsValid(l: Ledger)
    requires Inv(l) && l.repository == REPOSITORY && l.graph == "g" && "d" in l.destinations && l.events == map[]
    requires l.deliveries == map[]
    requires ValidEvent(MergedAt2000(), REPOSITORY, "g")
    ensures var e := MergedAt2000();
            Validate(l.(events := map[e.id := e], deliveries := map[TheKey(e) := Unmessaged()])) == None
  {
    hide ValidEvent;
    assert |map[TheKey(MergedAt2000()) := Unmessaged()]| == 1;
    assert ValidRecord(Unmessaged());
  }

  /** The decoder takes the ledger, the reducer the late acceptance, and the decoder refuses the result. */
  lemma LateAcceptanceWithoutMessage()
    ensures var l := WithUnmessaged();
            var step :=
                ApplyResult(l, TheKey(MergedAt2000()), TheAttempt(), AttemptResult(Accepted, 0, 200), 3000 * SECOND);
            Validate(l) == None && step.Next? && Validate(step.ledger) != None
  {
    hide Created, Validate, ApplyResult, AcceptSubscriptions, TheDestination, Unmessaged, Inv, MergedAt2000;
    CreatedIsGood([RequestMerged], 1000 * SECOND);
    EventIsValid(RequestMerged, 2000 * SECOND, 2100 * SECOND);
    MergedEvent();
    AddedIsValid(Created([RequestMerged], 1000 * SECOND));
    AcceptanceFails(WithUnmessaged());
  }

  lemma MergedEvent()
    ensures MergedAt2000() == PromotionEvent(RequestMerged, 2000 * SECOND, 2100 * SECOND)
  {
  }

  lemma AcceptanceFails(l: Ledger)
    requires Validate(l) == None && TheKey(MergedAt2000()) in l.deliveries
    requires l.deliveries[TheKey(MergedAt2000())] == Unmessaged()
    ensures var step :=
            ApplyResult(l, TheKey(MergedAt2000()), TheAttempt(), AttemptResult(Accepted, 0, 200), 3000 * SECOND);
            step.Next? && Validate(step.ledger) != None
  {
    hide Validate, MergedAt2000, TheDestination;
    LateAcceptanceNeedsItsMessage(l, TheKey(MergedAt2000()), TheAttempt(), AttemptResult(Accepted, 0, 200),
                                  3000 * SECOND);
  }
}
