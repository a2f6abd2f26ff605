/**
 * One run's work on one destination: save messages and claim, send under the
 * batch lease, record every receipt.
 */
module Dispatch {
  import opened Basics
  import opened Text
  import opened Model
  import opened Codec
  import opened Reducer
  import opened Guard
  import opened Invariant
  import opened Agreement
  import opened Claiming
  import opened Schedule
  import opened Listing
  import opened Receipts
  import opened Operations
  import MutableLedger

  // ------------------------------------------------------------------- preparing

  datatype Prepared = Prepared(ledger: Ledger, present: seq<Id>)

  /** Saves the missing messages; a key that is gone, or whose message cannot be rendered or saved, is left out. */
  ghost function SaveAll(l: Ledger, configOid: Oid, keys: seq<Id>, rendered: map<Id, Message>): Prepared {
    if keys == [] then Prepared(l, [])
    else
      var before := SaveAll(l, configOid, keys[..|keys| - 1], rendered);
      var key := keys[|keys| - 1];
      if key !in before.ledger.deliveries then before
      else if before.ledger.deliveries[key].message.Some? then before.(present := before.present + [key])
      else if key !in rendered then before
      else
        var saved := SaveMessage(before.ledger, configOid, key, rendered[key]);
        if saved.Err? then before else Prepared(saved.value, before.present + [key])
  }

  /** The transition of the first ledger write, as the store re-runs it on every snapshot. */
  method Prepare(l: MutableLedger.LedgerV1, configOid: Oid, name: string, batch: Id, keys: seq<Id>,
          attempts: map<Id, Id>, rendered: map<Id, Message>, now: Time)
    returns (r: Result<MutableLedger.Batch>)
    ensures r.Ok? ==> fresh(r.value.ledger)
    ensures var prepared := SaveAll(l.Value(), configOid, keys, rendered);
            MutableLedger.ReturnedBatch(r)
                == ClaimBatch(prepared.ledger, configOid, name, batch, prepared.present, attempts, now)
  {
    hide SaveMessage, ClaimBatch;
    var current := l;
    var present: seq<Id> := [];
    for i := 0 to |keys|
      invariant SaveAll(l.Value(), configOid, keys[..i], rendered) == Prepared(current.Value(), present)
      invariant current == l || fresh(current)
    {
      var key := keys[i];
      assert keys[..i + 1][..i] == keys[..i];
      if key in current.deliveries {
        if current.deliveries[key].message.None? {
          if key !in rendered { continue; }
          var saved := MutableLedger.SaveMessage(current, configOid, key, rendered[key]);
          if saved.Err? { continue; }
          current := saved.value;
        }
        present := present + [key];
      }
    }
    assert keys[..|keys|] == keys;
    r := MutableLedger.ClaimBatch(current, configOid, name, batch, present, attempts, now);
  }

  lemma SavedIsStep(l: Ledger, configOid: Oid, key: Id, m: Message)
    requires SaveMessage(l, configOid, key, m).Ok? && key in l.deliveries && l.deliveries[key].message.None?
    ensures SaveStep(l, configOid, key, m) == Next(SaveMessage(l, configOid, key, m).value)
    ensures l.policy.configOid == configOid
    ensures SaveMessage(l, configOid, key, m).value.deliveries
            == l.deliveries[key := l.deliveries[key].(message := Some(m))]
  {
    hide EncodedSize;
  }

  lemma SavesNothing(l: Ledger)
    ensures OnlyMessages(l, l)
  {
  }

  /** Only messages are added, every key that goes on has one, and no key is added or moved. */
  lemma {:induction false} SavingFacts(l: Ledger, configOid: Oid, keys: seq<Id>, rendered: map<Id, Message>)
    requires Distinct(keys)
    ensures var p := SaveAll(l, configOid, keys, rendered);
            && OnlyMessages(l, p.ledger) && Distinct(p.present)
            && (forall k :: k in p.present ==>
                  k in keys && k in p.ledger.deliveries && p.ledger.deliveries[k].message.Some?)
  {
    hide SaveMessage, SaveStep, OnlyMessages;
    if keys == [] {
      assert OnlyMessages(l, l) by { SavesNothing(l); }
    } else {
      var n := |keys| - 1;
      SavingFacts(l, configOid, keys[..n], rendered);
      var before := SaveAll(l, configOid, keys[..n], rendered);
      var key := keys[n];
      assert key !in keys[..n];
      if key in before.ledger.deliveries && before.ledger.deliveries[key].message.None? && key in rendered {
        if SaveMessage(before.ledger, configOid, key, rendered[key]).Ok? {
          SavedIsStep(before.ledger, configOid, key, rendered[key]);
          SavingAddsOnlyMessages(l, before.ledger, configOid, key, rendered[key]);
        }
      }
    }
  }

  /** A record that may still get a message, or has one: it was not retired without. */
  predicate NotRetiredBare(l: Ledger, k: Id) {
    k in l.deliveries && l.deliveries[k].status == Skipped ==> l.deliveries[k].message.Some?
  }

  /** Messages with clean titles, for records that were not retired without one. */
  predicate Savable(l: Ledger, keys: seq<Id>, rendered: map<Id, Message>) {
    (forall k :: k in rendered ==> NoControl(rendered[k].title)) && forall k :: k in keys ==> NotRetiredBare(l, k)
  }

  lemma {:induction false} SavingPreserves(l: Ledger, configOid: Oid, keys: seq<Id>, rendered: map<Id, Message>)
    requires Inv(l) && Distinct(keys) && Savable(l, keys, rendered)
    ensures Preserves(l, SaveAll(l, configOid, keys, rendered).ledger)
  {
    hide SaveMessage, Preserves, Inv;
    if keys == [] {
      PreservesItself(l);
    } else {
      var n := |keys| - 1;
      SavingPreserves(l, configOid, keys[..n], rendered);
      SavingFacts(l, configOid, keys[..n], rendered);
      var before := SaveAll(l, configOid, keys[..n], rendered).ledger;
      var key := keys[n];
      if key in before.deliveries && before.deliveries[key].message.None? && key in rendered {
        if SaveMessage(before, configOid, key, rendered[key]).Ok? {
          SavedIsStep(before, configOid, key, rendered[key]);
          PreservedIsGood(l, before);
          assert before.deliveries[key] == l.deliveries[key].(message := before.deliveries[key].message);
          assert NotRetiredBare(l, key);
          SaveMessagePreserves(before, configOid, key, rendered[key]);
          PreservesTransitive(l, before, SaveStep(before, configOid, key, rendered[key]).ledger);
        }
      }
    }
  }

  /** The whole first write keeps the invariant and every piece of evidence, so the store's guard lets it through. */
  lemma PrepareKeeps(l: Ledger, configOid: Oid, name: string, batch: Id, keys: seq<Id>, attempts: map<Id, Id>,
          rendered: map<Id, Message>, now: Time)
    requires Inv(l) && Distinct(keys) && Savable(l, keys, rendered) && SafeAttempts(attempts)
    requires var p := SaveAll(l, configOid, keys, rendered);
             ClaimBatchStep(p.ledger, configOid, name, batch, p.present, attempts, now).Ok?
    ensures var p := SaveAll(l, configOid, keys, rendered);
            Preserves(l, ClaimBatchStep(p.ledger, configOid, name, batch, p.present, attempts, now).value.ledger)
  {
    hide SaveAll, Preserves, Inv, ClaimBatchStep;
    var p := SaveAll(l, configOid, keys, rendered);
    SavingPreserves(l, configOid, keys, rendered);
    PreservedIsGood(l, p.ledger);
    ClaimBatchPreserves(p.ledger, configOid, name, batch, p.present, attempts, now);
    PreservesTransitive(l, p.ledger,
                        ClaimBatchStep(p.ledger, configOid, name, batch, p.present, attempts, now).value.ledger);
  }

  // ------------------------------------------------ what happens before the first write

  /** No step under one accepted configuration retires a record. */
  lemma ClaimKeysSkipNothing(l: Ledger, d: Destination, destination: string, keys: seq<Id>, attempts: map<Id, Id>,
          now: Time, k: Id)
    requires ClaimKeys(l, d, destination, keys, attempts, now).Ok? && k in l.deliveries
    ensures var after := ClaimKeys(l, d, destination, keys, attempts, now).value.deliveries;
            k in after && (after[k].status == Skipped ==> after[k] == l.deliveries[k])
  {
    if keys != [] { ClaimKeysSkipNothing(l, d, destination, keys[..|keys| - 1], attempts, now, k); }
  }

  /** A record the step skips was not skipped before, and is not retired. */
  predicate SkipsAttempted(before: Record, after: Record) {
    after.status == Skipped && before.status != Skipped ==> after.code != Retired
  }

  lemma SettlingSkipsAttempted(r: Record, result: AttemptResult, now: Time)
    ensures SkipsAttempted(r, SettledRecord(r, result, now))
  {
  }

  lemma ResultSkipsAttempted(l: Ledger, key: Id, attempt: Id, result: AttemptResult, now: Time, k: Id)
    requires ApplyResult(l, key, attempt, result, now).Next? && k in l.deliveries
    ensures var after := ApplyResult(l, key, attempt, result, now).ledger.deliveries;
            k in after && SkipsAttempted(l.deliveries[k], after[k])
  {
    hide SettledRecord, Settles;
    SettlingSkipsAttempted(l.deliveries[k], result, now);
  }

  lemma ResultsSkipAttempted(l: Ledger, destination: string, batch: Id, receipts: map<Id, Receipt>, now: Time, k: Id)
    requires ResultsStep(l, destination, batch, receipts, now).Next? && k in l.deliveries
    ensures var after := ResultsStep(l, destination, batch, receipts, now).ledger.deliveries;
            k in after && SkipsAttempted(l.deliveries[k], after[k])
  {
    hide SettledRecord, ReceiptSettles, BadReceipt, Held;
    if k in receipts { SettlingSkipsAttempted(l.deliveries[k], receipts[k].result, now); }
  }

  lemma QuietSkipsOnlyAttempted(l: Ledger, op: Op, k: Id)
    requires Quiet(op) && StepOf(l, op).Next? && k in l.deliveries
    ensures k in StepOf(l, op).ledger.deliveries && SkipsAttempted(l.deliveries[k], StepOf(l, op).ledger.deliveries[k])
  {
    hide ClaimKeys, EligibleNames, ApplyResult, ResultsStep;
    match op
    case ResultOp(key, attempt, result, now) => ResultSkipsAttempted(l, key, attempt, result, now, k);
    case ResultsOp(destination, batch, receipts, now) => ResultsSkipAttempted(l, destination, batch, receipts, now, k);
    case ClaimBatchOp(_, destination, _, keys, attempts, now) =>
      ClaimKeysSkipNothing(l, l.destinations[destination], destination, keys, attempts, now, k);
    case _ =>
  }

  lemma SkippedWithoutRetirementHasMessage(l: Ledger, k: Id)
    requires Inv(l) && k in l.deliveries && l.deliveries[k].status == Skipped && l.deliveries[k].code != Retired
    ensures l.deliveries[k].message.Some?
  {
    assert GoodDelivery(k, l.deliveries[k], l.destinations, l.events);
  }

  lemma QuietStepRetiresNothing(l: Ledger, next: Ledger, op: Op, k: Id)
    requires Inv(l) && RunStep(l, next, op) && Quiet(op) && k in l.deliveries && NotRetiredBare(l, k)
    ensures k in next.deliveries && NotRetiredBare(next, k)
  {
    hide Inv, StepOf, Quiet, WellFormed;
    RunStepKeepsInv(l, next, op);
    QuietSkipsOnlyAttempted(l, op, k);
    QuietPreserves(l, op);
    assert RecordExtends(l.deliveries[k], next.deliveries[k]);
    if next.deliveries[k].status == Skipped && next.deliveries[k].code != Retired {
      SkippedWithoutRetirementHasMessage(next, k);
    }
  }

  lemma {:induction false} QuietRunRetiresNothing(run: seq<Ledger>, ops: seq<Op>, i: nat, k: Id)
    requires StepsRun(run, ops) && (forall op :: op in ops ==> Quiet(op)) && i < |run|
    requires k in run[0].deliveries && NotRetiredBare(run[0], k)
    ensures k in run[i].deliveries && NotRetiredBare(run[i], k)
  {
    hide Inv, RunStep, Quiet, NotRetiredBare;
    if i > 0 {
      var last := i - 1;
      QuietRunRetiresNothing(run, ops, last, k);
      RunIsGood(run, ops, last);
      assert RunStep(run[last], run[last + 1], ops[last]);
      QuietStepRetiresNothing(run[last], run[last + 1], ops[last], k);
    }
  }

  /**
   * Whatever other runs did since the schedule was drawn up, short of accepting
   * another configuration, the first write keeps the invariant and every piece of
   * evidence.
   */
  lemma FirstWriteKeeps(run: seq<Ledger>, ops: seq<Op>, less: (Id, Id) -> bool, snapshot: Time, listed: seq<Id>,
          name: string, batch: Id, attempts: map<Id, Id>, rendered: map<Id, Message>, now: Time)
    requires StepsRun(run, ops) && (forall op :: op in ops ==> Quiet(op))
    requires FairChoice(run[0], less, snapshot, listed)
    requires (forall k :: k in rendered ==> NoControl(rendered[k].title)) && SafeAttempts(attempts)
    requires var l, keys := run[|ops|], Of(run[0], listed, name);
             var p := SaveAll(l, l.policy.configOid, keys, rendered);
             ClaimBatchStep(p.ledger, l.policy.configOid, name, batch, p.present, attempts, now).Ok?
    ensures var l, keys := run[|ops|], Of(run[0], listed, name);
            var p := SaveAll(l, l.policy.configOid, keys, rendered);
            Preserves(l,
                      ClaimBatchStep(p.ledger, l.policy.configOid, name, batch, p.present, attempts, now).value.ledger)
  {
    hide Inv, RunStep, Quiet, SaveAll, ClaimBatchStep, Preserves;
    var l, keys := run[|ops|], Of(run[0], listed, name);
    OfKeeps(run[0], listed, name);
    forall k | k in keys ensures NotRetiredBare(l, k) {
      assert Due(run[0], k, snapshot);
      QuietRunRetiresNothing(run, ops, |ops|, k);
    }
    RunIsGood(run, ops, |ops|);
    PrepareKeeps(l, l.policy.configOid, name, batch, keys, attempts, rendered, now);
  }

  /**
   * From a good ledger, of the keys the schedule lists for a destination the
   * first write claims exactly those it has a message for, in the listed order.
   */
  lemma PreparedKeysAreClaimed(l: Ledger, less: (Id, Id) -> bool, snapshot: Time, listed: seq<Id>, name: string,
          batch: Id, attempts: map<Id, Id>, rendered: map<Id, Message>, now: Time)
    requires Inv(l) && FairChoice(l, less, snapshot, listed) && snapshot <= now && now != NEVER && !BadAttempt(batch)
    requires forall k :: k in Of(l, listed, name) && k in l.deliveries
               ==> !BadAttempt(AttemptOf(attempts, k)) && AttemptOf(attempts, k) !in l.deliveries[k].attemptIds
    requires SaveAll(l, l.policy.configOid, Of(l, listed, name), rendered).present != []
    ensures var p := SaveAll(l, l.policy.configOid, Of(l, listed, name), rendered);
            var out := ClaimBatchStep(p.ledger, l.policy.configOid, name, batch, p.present, attempts, now);
            out.Ok? && out.value.claimed == p.present
  {
    hide SaveAll, Inv, ClaimBatchStep, OnlyMessages;
    OfKeeps(l, listed, name);
    SavingFacts(l, l.policy.configOid, Of(l, listed, name), rendered);
    var p := SaveAll(l, l.policy.configOid, Of(l, listed, name), rendered);
    ClaimsEveryDueKey(l, snapshot, p.present, name, p.ledger, batch, attempts, now);
  }

  // --------------------------------------------------------------------- sending

  datatype Payload = Payload(event: Event, message: Message)

  /** What is posted for a record the attempt holds. */
  function DeliveryPayload(l: Ledger, key: Id, attempt: Id, configOid: Oid): Result<Payload> {
    if l.policy.configOid != configOid then Err(StaleRevision)
    else if key !in l.deliveries || l.deliveries[key].status != Claimed || l.deliveries[key].lease.attemptId != attempt
            || l.deliveries[key].message.None? then Err(NotDue)
    else if l.deliveries[key].eventId !in l.events then Err(InvalidState)
    else Ok(Payload(l.events[l.deliveries[key].eventId], l.deliveries[key].message.value))
  }

  /**
   * What happens around one key: interruptions, clock readings, the two ways to look at the ledger, and the receiver's
   * answer. A read may find no ledger.
   */
  datatype Turn = Turn(
    interrupted: Option<Error>, canceled: Option<Error>, lookedAt: Time, renewed: Result<Ledger>,
    observed: Result<Option<Ledger>>, checkedAt: Time, result: AttemptResult)

  /** One POST: the turn it was made in and the ledger observed just before. */
  datatype Post = Post(turn: nat, ledger: Ledger, payload: Payload)

  const CANCELED_RESULT := AttemptResult(Canceled, 0, 0)

  datatype Job = Job(
    configOid: Oid, name: string, batch: Id, attempts: map<Id, Id>, claimed: seq<Id>, turns: seq<Turn>)
  {
    predicate Valid() {
      |turns| == |claimed| && Distinct(claimed) && forall k :: k in claimed ==> k in attempts
    }
  }

  /** When the batch lease ends as far as the run knows before turn t: a renewal it needed and got moves it. */
  function LeaseAt(job: Job, prepared: Ledger, t: nat): Time
    requires job.Valid() && t <= |job.claimed|
  {
    if t == 0 then DestinationOf(prepared, job.name).lease.until
    else
      var until, turn := LeaseAt(job, prepared, t - 1), job.turns[t - 1];
      if until - turn.lookedAt < 60 * SECOND && turn.renewed.Ok?
      then DestinationOf(turn.renewed.value, job.name).lease.until
      else until
  }

  /** What turn t looks at: with less than a minute of the lease left its renewal, otherwise the ledger as it is. */
  function Looked(job: Job, prepared: Ledger, t: nat): Result<Option<Ledger>>
    requires job.Valid() && t < |job.claimed|
  {
    var turn := job.turns[t];
    if LeaseAt(job, prepared, t) - turn.lookedAt >= 60 * SECOND then turn.observed
    else if turn.renewed.Err? then Err(turn.renewed.error)
    else Ok(Some(turn.renewed.value))
  }

  /** What the send check says of record t on a ledger. */
  function Verdict(job: Job, l: Option<Ledger>, t: nat): Option<Error>
    requires job.Valid() && t < |job.claimed|
  {
    var key := job.claimed[t];
    CheckBatchSend(l, job.configOid, job.name, job.batch, key, job.attempts[key], job.turns[t].checkedAt)
  }

  /** Why the run would end at turn t; a record that alone is lost ends nothing. */
  function Halt(job: Job, prepared: Ledger, t: nat): Option<Error>
    requires job.Valid() && t < |job.claimed|
  {
    var turn, looked := job.turns[t], Looked(job, prepared, t);
    if t > 0 && turn.interrupted.Some? then turn.interrupted
    else if turn.canceled.Some? then turn.canceled
    else if looked.Err? then Some(looked.error)
    else if Verdict(job, looked.value, t) == Some(ClaimLost) then None
    else Verdict(job, looked.value, t)
  }

  predicate Reaches(job: Job, prepared: Ledger, n: nat)
    requires job.Valid() && n <= |job.claimed|
  {
    forall t :: 0 <= t < n ==> Halt(job, prepared, t) == None
  }

  /** The run ends with the error of the first turn that has one, and with none exactly if no turn does. */
  predicate Ended(job: Job, prepared: Ledger, stop: Option<Error>)
    requires job.Valid()
  {
    && (forall t :: 0 <= t < |job.claimed| && Reaches(job, prepared, t) && Halt(job, prepared, t).Some? ==>
          stop == Halt(job, prepared, t))
    && (Reaches(job, prepared, |job.claimed|) ==> stop == None)
  }

  /** Nothing comes in the way of record t. */
  predicate Undisturbed(job: Job, prepared: Ledger, t: nat)
    requires job.Valid() && t < |job.claimed|
  {
    && job.turns[t].interrupted == None && job.turns[t].canceled == None
    && Looked(job, prepared, t).Ok? && Verdict(job, Looked(job, prepared, t).value, t) == None
  }

  /** A POST is made in its own turn, on the ledger that turn looked at, in which the batch still owns the record. */
  predicate Justified(job: Job, prepared: Ledger, post: Post)
    requires job.Valid()
  {
    && post.turn < |job.claimed|
    && var key := job.claimed[post.turn];
       && Looked(job, prepared, post.turn) == Ok(Some(post.ledger))
       && Verdict(job, Some(post.ledger), post.turn) == None
       && key in post.ledger.deliveries && post.ledger.deliveries[key].eventId in post.ledger.events
       && post.payload.event == post.ledger.events[post.ledger.deliveries[key].eventId]
       && Some(post.payload.message) == post.ledger.deliveries[key].message
  }

  /** POSTs come in claim order, so no record is posted twice. */
  predicate InOrder(posts: seq<Post>) {
    forall i, j :: 0 <= i < j < |posts| ==> posts[i].turn < posts[j].turn
  }

  predicate Posted(posts: seq<Post>, turn: nat) {
    exists i :: 0 <= i < |posts| && posts[i].turn == turn
  }

  /** A posted record's receipt is the receiver's answer, any other one a cancellation. */
  predicate Receipted(job: Job, posts: seq<Post>, receipts: map<Id, Receipt>, t: nat)
    requires job.Valid() && t < |job.claimed|
  {
    var key := job.claimed[t];
    key in receipts && receipts[key]
        == Receipt(job.attempts[key], if Posted(posts, t) then job.turns[t].result else CANCELED_RESULT)
  }

  /**
   * A record is attempted exactly if the run gets past its turn. It is then posted, if the check on the ledger looked
   * at finds nothing, or is another attempt's.
   */
  predicate Accounted(job: Job, prepared: Ledger, posts: seq<Post>, attempted: map<Id, Option<Error>>, t: nat)
    requires job.Valid() && t < |job.claimed|
  {
    var key := job.claimed[t];
    if Reaches(job, prepared, t + 1) then
      && Looked(job, prepared, t).Ok?
      && key in attempted && attempted[key] == Verdict(job, Looked(job, prepared, t).value, t)
      && (Posted(posts, t) <==> attempted[key] == None)
    else key !in attempted && !Posted(posts, t)
  }

  /** What the loop knows when i records are done. */
  predicate Progress(job: Job, prepared: Ledger, posts: seq<Post>, receipts: map<Id, Receipt>,
          attempted: map<Id, Option<Error>>, i: nat)
    requires job.Valid() && i <= |job.claimed|
  {
    && receipts.Keys == (set k | k in job.claimed) && Reaches(job, prepared, i)
    && (forall t :: 0 <= t < |job.claimed| ==> Receipted(job, posts, receipts, t))
    && InOrder(posts) && (forall p :: 0 <= p < |posts| ==> Justified(job, prepared, posts[p]) && posts[p].turn < i)
    && (forall t :: 0 <= t < |job.claimed| ==>
          if t < i then Accounted(job, prepared, posts, attempted, t) else job.claimed[t] !in attempted)
  }

  lemma PostedMakesProgress(job: Job, prepared: Ledger, posts: seq<Post>, receipts: map<Id, Receipt>,
          attempted: map<Id, Option<Error>>, i: nat, post: Post)
    requires job.Valid() && i < |job.claimed| && Progress(job, prepared, posts, receipts, attempted, i)
    requires Halt(job, prepared, i) == None && Justified(job, prepared, post) && post.turn == i
    ensures var key := job.claimed[i];
            Progress(job, prepared, posts + [post],
                     receipts[key := Receipt(job.attempts[key], job.turns[i].result)], attempted[key := None], i + 1)
  {
    var key := job.claimed[i];
    var more := posts + [post];
    var after, tried, next :=
        receipts[key := Receipt(job.attempts[key], job.turns[i].result)], attempted[key := None], i + 1;
    assert Reaches(job, prepared, next);
    hide Justified, Verdict, Looked, Halt, Accounted, Receipted, InOrder, Posted, Reaches, Distinct;
    PostsStayInOrder(posts, post);
    assert key in receipts && after.Keys == receipts.Keys;
    forall t: nat | t < |job.claimed|
      ensures Receipted(job, more, after, t)
      ensures if t < next then Accounted(job, prepared, more, tried, t) else job.claimed[t] !in tried
    {
      assert Receipted(job, posts, receipts, t);
      PostedTurn(job, prepared, posts, receipts, attempted, post, t);
    }
  }

  lemma PostedTurn(job: Job, prepared: Ledger, posts: seq<Post>, receipts: map<Id, Receipt>,
          attempted: map<Id, Option<Error>>, post: Post, t: nat)
    requires job.Valid() && post.turn < |job.claimed| && t < |job.claimed| && Reaches(job, prepared, post.turn + 1)
    requires Justified(job, prepared, post) && Receipted(job, posts, receipts, t)
    requires if t < post.turn then Accounted(job, prepared, posts, attempted, t) else job.claimed[t] !in attempted
    ensures var i := post.turn;
            var key := job.claimed[i];
            var tried := attempted[key := None];
            && Receipted(job, posts + [post], receipts[key := Receipt(job.attempts[key], job.turns[i].result)], t)
            && if t < i + 1 then Accounted(job, prepared, posts + [post], tried, t) else job.claimed[t] !in tried
  {
    hide Justified, Verdict, Looked, Halt, Accounted, Receipted, Posted, Reaches;
    PostedIsReceipted(job, posts, receipts, post, t);
    if t < post.turn {
      PostedIsAccounted(job, prepared, posts, attempted, post, t);
    } else if t == post.turn {
      PostIsAccounted(job, prepared, posts, attempted, post);
    }
  }

  lemma PostsStayInOrder(posts: seq<Post>, post: Post)
    requires InOrder(posts) && forall p :: 0 <= p < |posts| ==> posts[p].turn < post.turn
    ensures InOrder(posts + [post])
  {
  }

  lemma PostedIsReceipted(job: Job, posts: seq<Post>, receipts: map<Id, Receipt>, post: Post, t: nat)
    requires job.Valid() && post.turn < |job.claimed| && t < |job.claimed| && Receipted(job, posts, receipts, t)
    ensures var i := post.turn;
            Receipted(job, posts + [post],
                      receipts[job.claimed[i] := Receipt(job.attempts[job.claimed[i]], job.turns[i].result)], t)
  {
    PostedOneMore(posts, post, t);
  }

  lemma PostedIsAccounted(job: Job, prepared: Ledger, posts: seq<Post>, attempted: map<Id, Option<Error>>, post: Post,
          t: nat)
    requires job.Valid() && t < post.turn < |job.claimed| && Accounted(job, prepared, posts, attempted, t)
    ensures Accounted(job, prepared, posts + [post], attempted[job.claimed[post.turn] := None], t)
  {
    hide Verdict, Looked, Halt;
    PostedOneMore(posts, post, t);
  }

  lemma PostIsAccounted(job: Job, prepared: Ledger, posts: seq<Post>, attempted: map<Id, Option<Error>>, post: Post)
    requires job.Valid() && post.turn < |job.claimed| && Reaches(job, prepared, post.turn + 1)
    requires Justified(job, prepared, post)
    ensures Accounted(job, prepared, posts + [post], attempted[job.claimed[post.turn] := None], post.turn)
  {
    hide Verdict, Looked, Halt;
    PostedOneMore(posts, post, post.turn);
  }

  lemma PostedOneMore(posts: seq<Post>, post: Post, t: nat)
    ensures Posted(posts + [post], t) <==> Posted(posts, t) || t == post.turn
  {
    var more := posts + [post];
    if Posted(posts, t) {
      var p :| 0 <= p < |posts| && posts[p].turn == t;
      assert more[p].turn == t;
    }
    if t == post.turn { assert more[|posts|].turn == t; }
  }

  lemma LostMakesProgress(job: Job, prepared: Ledger, posts: seq<Post>, receipts: map<Id, Receipt>,
          attempted: map<Id, Option<Error>>, i: nat)
    requires job.Valid() && i < |job.claimed| && Progress(job, prepared, posts, receipts, attempted, i)
    requires Halt(job, prepared, i) == None && Looked(job, prepared, i).Ok?
    requires Verdict(job, Looked(job, prepared, i).value, i) == Some(ClaimLost)
    ensures Progress(job, prepared, posts, receipts, attempted[job.claimed[i] := Some(ClaimLost)], i + 1)
  {
    hide Justified, Receipted, Verdict, Looked, Halt;
    var tried, next := attempted[job.claimed[i] := Some(ClaimLost)], i + 1;
    forall t: nat | t < |job.claimed|
      ensures if t < next then Accounted(job, prepared, posts, tried, t) else job.claimed[t] !in tried
    {
      if t < i { assert Accounted(job, prepared, posts, attempted, t); }
    }
  }

  /** What is posted is the record's event and message, as long as the attempt holds the record. */
  lemma PayloadExactly(l: Ledger, key: Id, attempt: Id, configOid: Oid, payload: Payload)
    ensures DeliveryPayload(l, key, attempt, configOid) == Ok(payload) <==>
              && l.policy.configOid == configOid && key in l.deliveries
              && var r := l.deliveries[key];
                 && r.status == Claimed && r.lease.attemptId == attempt && r.message == Some(payload.message)
                 && r.eventId in l.events && l.events[r.eventId] == payload.event
    ensures DeliveryPayload(l, key, attempt, configOid).Err? ==>
              DeliveryPayload(l, key, attempt, configOid).error
              == if l.policy.configOid != configOid then StaleRevision
                 else if key in l.deliveries && l.deliveries[key].status == Claimed
                         && l.deliveries[key].lease.attemptId == attempt && l.deliveries[key].message != None
                 then InvalidState else NotDue
  {
  }

  /** Whatever the check lets through has a payload. */
  lemma CheckedHasPayload(l: Ledger, configOid: Oid, name: string, batch: Id, key: Id, attempt: Id, now: Time)
    requires CheckBatchSend(Some(l), configOid, name, batch, key, attempt, now) == None
    ensures DeliveryPayload(l, key, attempt, configOid).Ok?
  {
  }

  /** A receipt for every claimed record, canceled until its POST is made. */
  method InitialReceipts(job: Job) returns (receipts: map<Id, Receipt>)
    requires job.Valid()
    ensures receipts.Keys == set k | k in job.claimed
    ensures forall t :: 0 <= t < |job.claimed| ==> Receipted(job, [], receipts, t)
  {
    receipts := map[];
    for i := 0 to |job.claimed|
      invariant forall k :: k in receipts <==> k in job.claimed[..i]
      invariant forall t :: 0 <= t < i ==>
                  receipts[job.claimed[t]] == Receipt(job.attempts[job.claimed[t]], CANCELED_RESULT)
    {
      var key := job.claimed[i];
      assert job.claimed[..i + 1] == job.claimed[..i] + [key];
      assert forall t :: 0 <= t < i ==> job.claimed[t] != key;
      receipts := receipts[key := Receipt(job.attempts[key], CANCELED_RESULT)];
    }
    assert job.claimed[..|job.claimed|] == job.claimed;
  }

  /** The look at the ledger before a POST: a renewal when the lease is half gone, else a read. */
  method Look(name: string, turn: Turn, leaseUntil: Time) returns (current: Result<Option<Ledger>>, until: Time)
    ensures leaseUntil - turn.lookedAt >= 60 * SECOND ==> current == turn.observed && until == leaseUntil
    ensures leaseUntil - turn.lookedAt < 60 * SECOND ==>
              if turn.renewed.Ok?
              then current == Ok(Some(turn.renewed.value))
                   && until == DestinationOf(turn.renewed.value, name).lease.until
              else current == Err(turn.renewed.error) && until == leaseUntil
  {
    until := leaseUntil;
    if leaseUntil - turn.lookedAt < CLAIM_DURATION / 2 {
      if turn.renewed.Err? { return Err(turn.renewed.error), until; }
      current := Ok(Some(turn.renewed.value));
      until := DestinationOf(turn.renewed.value, name).lease.until;
    } else {
      current := turn.observed;
    }
  }

  /** The send loop. */
  method SendAll(job: Job, prepared: Ledger)
    returns (receipts: map<Id, Receipt>, attempted: map<Id, Option<Error>>, stop: Option<Error>, posts: seq<Post>)
    requires job.Valid()
    ensures receipts.Keys == set k | k in job.claimed
    ensures forall t :: 0 <= t < |job.claimed| ==> Receipted(job, posts, receipts, t)
    ensures InOrder(posts) && forall i :: 0 <= i < |posts| ==> Justified(job, prepared, posts[i])
    ensures forall t :: 0 <= t < |job.claimed| ==> Accounted(job, prepared, posts, attempted, t)
    ensures Ended(job, prepared, stop)
    ensures (forall t :: 0 <= t < |job.claimed| ==> Undisturbed(job, prepared, t)) ==>
              stop == None && forall t :: 0 <= t < |job.claimed| ==> Posted(posts, t)
  {
    hide CheckBatchSend, Progress;
    receipts := InitialReceipts(job);
    attempted, stop, posts := map[], None, [];
    var leaseUntil := DestinationOf(prepared, job.name).lease.until;
    var i := 0;
    StartsWithoutProgress(job, prepared, receipts);
    while i < |job.claimed|
      invariant 0 <= i <= |job.claimed| && stop == None && Progress(job, prepared, posts, receipts, attempted, i)
      invariant leaseUntil == LeaseAt(job, prepared, i)
    {
      var key, turn := job.claimed[i], job.turns[i];
      if i > 0 && turn.interrupted.Some? { stop := turn.interrupted; break; }
      if turn.canceled.Some? { stop := turn.canceled; break; }
      var current;
      current, leaseUntil := Look(job.name, turn, leaseUntil);
      assert current == Looked(job, prepared, i);
      if current.Err? { stop := Some(current.error); break; }
      var refused := CheckBatchSend(current.value, job.configOid, job.name, job.batch, key, job.attempts[key],
                                    turn.checkedAt);
      assert refused == Verdict(job, current.value, i);
      if refused == Some(ClaimLost) {
        LostMakesProgress(job, prepared, posts, receipts, attempted, i);
        attempted := attempted[key := refused];
      } else if refused.Some? {
        stop := refused;
        break;
      } else {
        PassesOnLedger(job, current.value, i);
        CheckedHasPayload(current.value.value, job.configOid, job.name, job.batch, key, job.attempts[key],
                          turn.checkedAt);
        var payload := DeliveryPayload(current.value.value, key, job.attempts[key], job.configOid);
        PostedMakesProgress(job, prepared, posts, receipts, attempted, i,
                            Post(i, current.value.value, payload.value));
        posts := posts + [Post(i, current.value.value, payload.value)];
        receipts := receipts[key := Receipt(job.attempts[key], turn.result)];
        attempted := attempted[key := None];
      }
      i := i + 1;
    }
    ProgressIsAccount(job, prepared, posts, receipts, attempted, stop, i);
    UndisturbedIsPosted(job, prepared, posts, attempted, stop);
  }

  lemma PassesOnLedger(job: Job, l: Option<Ledger>, t: nat)
    requires job.Valid() && t < |job.claimed| && Verdict(job, l, t) == None
    ensures l.Some?
  {
  }

  lemma StartsWithoutProgress(job: Job, prepared: Ledger, receipts: map<Id, Receipt>)
    requires job.Valid() && receipts.Keys == (set k | k in job.claimed)
    requires forall t :: 0 <= t < |job.claimed| ==> Receipted(job, [], receipts, t)
    ensures Progress(job, prepared, [], receipts, map[], 0)
  {
  }

  lemma ProgressIsAccount(job: Job, prepared: Ledger, posts: seq<Post>, receipts: map<Id, Receipt>,
          attempted: map<Id, Option<Error>>, stop: Option<Error>, i: nat)
    requires job.Valid() && i <= |job.claimed| && Progress(job, prepared, posts, receipts, attempted, i)
    requires if i < |job.claimed| then stop.Some? && stop == Halt(job, prepared, i) else stop == None
    ensures receipts.Keys == (set k | k in job.claimed) && InOrder(posts)
    ensures forall p :: 0 <= p < |posts| ==> Justified(job, prepared, posts[p])
    ensures forall t :: 0 <= t < |job.claimed| ==>
              Receipted(job, posts, receipts, t) && Accounted(job, prepared, posts, attempted, t)
    ensures Ended(job, prepared, stop)
  {
    hide Justified, Receipted, Halt, Looked, Verdict;
    forall t | 0 <= t < |job.claimed| && Reaches(job, prepared, t) && Halt(job, prepared, t).Some?
      ensures stop == Halt(job, prepared, t)
    {
    }
  }

  /** Left alone, the run posts everything it claimed. */
  lemma UndisturbedIsPosted(job: Job, prepared: Ledger, posts: seq<Post>, attempted: map<Id, Option<Error>>,
          stop: Option<Error>)
    requires job.Valid() && Ended(job, prepared, stop)
    requires forall t :: 0 <= t < |job.claimed| ==> Accounted(job, prepared, posts, attempted, t)
    ensures (forall t :: 0 <= t < |job.claimed| ==> Undisturbed(job, prepared, t)) ==>
              stop == None && forall t :: 0 <= t < |job.claimed| ==> Posted(posts, t)
  {
    if forall t :: 0 <= t < |job.claimed| ==> Undisturbed(job, prepared, t) {
      forall t: nat | t < |job.claimed| ensures Halt(job, prepared, t) == None {
        assert Undisturbed(job, prepared, t);
      }
      hide Looked, Verdict, Halt;
      forall t: nat | t < |job.claimed| ensures Posted(posts, t) {
        assert Undisturbed(job, prepared, t) && Accounted(job, prepared, posts, attempted, t);
        assert Reaches(job, prepared, t + 1);
      }
    }
  }

  // ------------------------------------------------------------------- recording

  /** The claim a job works on: made on some ledger, landed as l. */
  predicate ClaimedAs(job: Job, before: Ledger, keys: seq<Id>, at: Time, l: Ledger) {
    ClaimBatchStep(before, job.configOid, job.name, job.batch, keys, job.attempts, at) == Ok(Batch(l, job.claimed))
  }

  lemma ClaimIsRecordable(job: Job, before: Ledger, keys: seq<Id>, at: Time, l: Ledger)
    requires ClaimedAs(job, before, keys, at, l)
    ensures job.batch != NO_ID
    ensures forall k :: k in job.claimed ==>
              Recordable(l, k, AttemptOf(job.attempts, k)) && l.deliveries[k].destination == job.name
  {
    hide ClaimKeys, DueKeys;
    var d := before.destinations[job.name];
    ClaimBatchIsExact(before, job.configOid, job.name, job.batch, keys, job.attempts, at);
    ClaimKeysIsExact(before, d, job.name, keys, job.attempts, at);
    forall k | k in job.claimed
      ensures Recordable(l, k, AttemptOf(job.attempts, k)) && l.deliveries[k].destination == job.name
    {
      assert k in keys && Claimable(before, d, job.name, k, job.attempts, at);
      var r := before.deliveries[k];
      assert l.deliveries[k] == ClaimedRecord(r, AttemptOf(job.attempts, k), at);
      assert l.deliveries[k].attemptIds[|r.attemptIds|] == AttemptOf(job.attempts, k);
    }
  }

  predicate RecordableReceipt(l: Ledger, destination: string, key: Id, receipt: Receipt, now: Time) {
    && key in l.deliveries && l.deliveries[key].destination == destination
    && receipt.attemptId in l.deliveries[key].attemptIds && AttemptOutcome(receipt.result.code) && now != NEVER
  }

  lemma RecordableIsNotBad(l: Ledger, destination: string, key: Id, receipt: Receipt, now: Time)
    requires RecordableReceipt(l, destination, key, receipt, now)
    ensures !BadReceipt(l, destination, key, receipt, now)
  {
  }

  lemma AcceptedSettles(l: Ledger, destination: string, receipts: map<Id, Receipt>, now: Time, k: Id)
    requires k in receipts && receipts[k].result.code == Accepted && !BadReceipt(l, destination, k, receipts[k], now)
    ensures var settled := SettleAll(l, destination, receipts, now).deliveries;
            k in settled && settled[k].status == Delivered
  {
    hide Held;
  }

  /**
   * Whatever other runs committed since the claim, the batch's receipts are never
   * refused as invalid, and every record whose receiver accepted ends delivered.
   */
  lemma ReceiptsAlwaysLand(h: seq<Ledger>, relations: seq<Relation>, i: nat, j: nat, job: Job, before: Ledger,
          keys: seq<Id>, at: Time, posts: seq<Post>, receipts: map<Id, Receipt>, now: Time)
    requires History(h, relations) && i <= j < |h| && job.Valid() && ClaimedAs(job, before, keys, at, h[i])
    requires now != NEVER
    requires receipts.Keys == set k | k in job.claimed
    requires forall t :: 0 <= t < |job.claimed| ==>
               Receipted(job, posts, receipts, t) && AttemptOutcome(job.turns[t].result.code)
    ensures ResultsStep(h[j], job.name, job.batch, receipts, now).Next?
    ensures var after := ResultsStep(h[j], job.name, job.batch, receipts, now).ledger;
            forall t :: 0 <= t < |job.claimed| && Posted(posts, t) && job.turns[t].result.code == Accepted ==>
              job.claimed[t] in after.deliveries && after.deliveries[job.claimed[t]].status == Delivered
  {
    hide Posted, ClaimedAs, History, ReleaseBatch, SettleAll, BadReceipt;
    ClaimIsRecordable(job, before, keys, at, h[i]);
    HistoryExtends(h, relations, i, j);
    forall k | k in receipts ensures !BadReceipt(h[j], job.name, k, receipts[k], now) {
      var t :| 0 <= t < |job.claimed| && job.claimed[t] == k;
      assert Receipted(job, posts, receipts, t) && RecordExtends(h[i].deliveries[k], h[j].deliveries[k]);
      assert RecordableReceipt(h[j], job.name, k, receipts[k], now);
      RecordableIsNotBad(h[j], job.name, k, receipts[k], now);
    }
    ReleaseKeepsDeliveries(SettleAll(h[j], job.name, receipts, now), job.name, job.batch, now);
    var settled := SettleAll(h[j], job.name, receipts, now).deliveries;
    forall t | 0 <= t < |job.claimed| && Posted(posts, t) && job.turns[t].result.code == Accepted
      ensures job.claimed[t] in settled && settled[job.claimed[t]].status == Delivered
    {
      assert Receipted(job, posts, receipts, t)
             && !BadReceipt(h[j], job.name, job.claimed[t], receipts[job.claimed[t]], now);
      AcceptedSettles(h[j], job.name, receipts, now, job.claimed[t]);
    }
  }

  lemma ReleaseKeepsDeliveries(l: Ledger, destination: string, batch: Id, now: Time)
    ensures ReleaseBatch(l, destination, batch, now).deliveries == l.deliveries
  {
  }

  // ------------------------------------------------------------------- left alone

  /** The ledger before turn t as long as nothing but this run's renewals is written. */
  function AloneAt(job: Job, prepared: Ledger, t: nat): Ledger
    requires job.Valid() && t <= |job.claimed|
  {
    if t == 0 then prepared
    else
      var l, turn := AloneAt(job, prepared, t - 1), job.turns[t - 1];
      if LeaseAt(job, prepared, t - 1) - turn.lookedAt < 60 * SECOND && turn.renewed.Ok? then turn.renewed.value else l
  }

  /** Nobody interferes with turn t, its renewal goes through when it needs one, and it takes less than a minute. */
  predicate Alone(job: Job, prepared: Ledger, at: Time, t: nat)
    requires job.Valid() && t < |job.claimed|
  {
    var turn, l, last := job.turns[t], AloneAt(job, prepared, t), if t == 0 then at else job.turns[t - 1].lookedAt;
    && turn.interrupted == None && turn.canceled == None
    && last <= turn.lookedAt < last + 60 * SECOND && turn.lookedAt <= turn.checkedAt < turn.lookedAt + 60 * SECOND
    && turn.observed == Ok(Some(l))
    && (LeaseAt(job, prepared, t) - turn.lookedAt < 60 * SECOND ==>
          var next := RenewBatch(l, job.configOid, job.name, job.batch, job.attempts, turn.lookedAt);
          next.Next? && turn.renewed == Ok(next.ledger))
  }

  /** The batch may send every record it claimed from one instant until its lease ends. */
  predicate MaySend(job: Job, l: Ledger, from: Time)
    requires job.Valid()
  {
    && job.name in l.destinations && l.destinations[job.name].name == job.name
    && forall k, x :: k in job.claimed && from <= x < l.destinations[job.name].lease.until ==>
         CheckBatchSend(Some(l), job.configOid, job.name, job.batch, k, job.attempts[k], x) == None
  }

  lemma RenewalKeepsSending(job: Job, l: Ledger, from: Time, now: Time)
    requires job.Valid() && MaySend(job, l, from) && from <= now < l.destinations[job.name].lease.until
    requires RenewBatch(l, job.configOid, job.name, job.batch, job.attempts, now).Next?
    ensures var after := RenewBatch(l, job.configOid, job.name, job.batch, job.attempts, now).ledger;
            MaySend(job, after, now) && after.destinations[job.name].lease.until == now + 120 * SECOND
  {
    var after := RenewBatch(l, job.configOid, job.name, job.batch, job.attempts, now).ledger;
    assert job.name in after.destinations && after.destinations[job.name].name == job.name;
    assert after.destinations[job.name].lease.until == now + 120 * SECOND;
    hide CheckBatchSend, RenewBatch;
    forall k, x | k in job.claimed && now <= x < now + 120 * SECOND
      ensures CheckBatchSend(Some(after), job.configOid, job.name, job.batch, k, job.attempts[k], x) == None
    {
      RenewalMovesWindow(l, job.configOid, job.name, job.batch, job.attempts, now, k, x);
      assert CheckBatchSend(Some(l), job.configOid, job.name, job.batch, k, job.attempts[k], now) == None;
    }
  }

  lemma ClaimMaySend(job: Job, before: Ledger, keys: seq<Id>, at: Time, prepared: Ledger)
    requires job.Valid() && ClaimedAs(job, before, keys, at, prepared)
    requires job.name in before.destinations && before.destinations[job.name].name == job.name
    ensures MaySend(job, prepared, at) && prepared.destinations[job.name].lease.until == at + 120 * SECOND
  {
    ClaimBatchIsExact(before, job.configOid, job.name, job.batch, keys, job.attempts, at);
    assert job.name in prepared.destinations && prepared.destinations[job.name].name == job.name;
    assert prepared.destinations[job.name].lease.until == at + 120 * SECOND;
    hide CheckBatchSend, ClaimBatchStep;
    forall k, x | k in job.claimed && at <= x < at + 120 * SECOND
      ensures CheckBatchSend(Some(prepared), job.configOid, job.name, job.batch, k, job.attempts[k], x) == None
    {
      ClaimOpensWindow(before, job.configOid, job.name, job.batch, keys, job.attempts, at, k, x);
    }
  }

  /** While a run is alone, its lease never ends within a minute of its last look. */
  lemma {:induction false} AloneKeepsSending(job: Job, prepared: Ledger, at: Time, t: nat)
    requires job.Valid() && t <= |job.claimed| && MaySend(job, prepared, at)
    requires prepared.destinations[job.name].lease.until == at + 120 * SECOND
    requires forall s :: 0 <= s < t ==> Alone(job, prepared, at, s)
    ensures var l, last := AloneAt(job, prepared, t), if t == 0 then at else job.turns[t - 1].lookedAt;
            && MaySend(job, l, last) && LeaseAt(job, prepared, t) == l.destinations[job.name].lease.until
            && LeaseAt(job, prepared, t) >= last + 60 * SECOND
  {
    hide CheckBatchSend, RenewBatch;
    if t > 0 {
      var n := t - 1;
      AloneKeepsSending(job, prepared, at, n);
      assert Alone(job, prepared, at, n);
      var l, now := AloneAt(job, prepared, n), job.turns[n].lookedAt;
      if LeaseAt(job, prepared, n) - now < 60 * SECOND {
        RenewalKeepsSending(job, l, if n == 0 then at else job.turns[n - 1].lookedAt, now);
      }
    }
  }

  /**
   * A run that is alone from its claim on, and takes less than a minute for each record, finds nothing in the way of
   * any of them, however long the whole batch takes: so it posts them all.
   */
  lemma AloneIsUndisturbed(job: Job, before: Ledger, keys: seq<Id>, at: Time, prepared: Ledger)
    requires job.Valid() && ClaimedAs(job, before, keys, at, prepared)
    requires job.name in before.destinations && before.destinations[job.name].name == job.name
    requires forall t :: 0 <= t < |job.claimed| ==> Alone(job, prepared, at, t)
    ensures forall t :: 0 <= t < |job.claimed| ==> Undisturbed(job, prepared, t)
  {
    hide CheckBatchSend, RenewBatch, ClaimedAs, MaySend;
    ClaimMaySend(job, before, keys, at, prepared);
    forall t: nat | t < |job.claimed| ensures Undisturbed(job, prepared, t) {
      assert Alone(job, prepared, at, t);
      AloneKeepsSending(job, prepared, at, t);
      AloneKeepsSending(job, prepared, at, t + 1);
      AloneTurnPasses(job, prepared, at, t);
    }
  }

  lemma AloneTurnPasses(job: Job, prepared: Ledger, at: Time, t: nat)
    requires job.Valid() && t < |job.claimed| && Alone(job, prepared, at, t)
    requires var l := AloneAt(job, prepared, t + 1);
             && MaySend(job, l, job.turns[t].lookedAt)
             && l.destinations[job.name].lease.until >= job.turns[t].lookedAt + 60 * SECOND
    ensures Undisturbed(job, prepared, t)
  {
    hide CheckBatchSend, RenewBatch;
    assert Looked(job, prepared, t) == Ok(Some(AloneAt(job, prepared, t + 1)));
    assert job.claimed[t] in job.claimed;
  }
}
