/**
 * What transitions share with the ledger they read. A record's attempts are a
 * slice of an array that may have spare room, its message and a destination's
 * subscriptions sit behind pointers, and some transitions hand the input's own
 * pointers on to their result. Memory is explicit here, so a write that reached
 * an earlier snapshot would show.
 */
module Sharing {
  import opened Basics
  import opened Model
  import Reducer
  import Text

  // ------------------------------------------------------------------------- memory

  /** An address: which allocation, and for what. */
  datatype Address = Address(number: nat, owner: Id)

  datatype Place = Place(number: nat, name: string)

  datatype Memory = Memory(
    arrays: map<Address, seq<Id>>, boxes: map<Address, Message>, tables: map<Place, map<SubKey, Subscription>>,
    next: nat)

  /** Whatever is allocated next is new. */
  predicate Sound(m: Memory) {
    && (forall a :: a in m.arrays ==> a.number < m.next) && (forall a :: a in m.boxes ==> a.number < m.next)
    && (forall p :: p in m.tables ==> p.number < m.next)
  }

  ghost predicate Extends<K, V>(before: map<K, V>, after: map<K, V>) {
    forall k :: k in before ==> k in after && after[k] == before[k]
  }

  /** Nothing that was there has been written to. */
  ghost predicate Kept(before: Memory, after: Memory) {
    before.next <= after.next && Extends(before.arrays, after.arrays) && Extends(before.boxes, after.boxes)
          && Extends(before.tables, after.tables)
  }

  lemma KeptItself(m: Memory)
    ensures Kept(m, m)
  {
  }

  lemma KeptTransitive(a: Memory, b: Memory, c: Memory)
    requires Kept(a, b) && Kept(b, c)
    ensures Kept(a, c)
  {
  }

  // ------------------------------------------------------------------------ pointers

  /** The first used elements of an array. */
  datatype Slice = Slice(at: Address, used: nat)

  /** A record whose attempts and message are held elsewhere. */
  datatype SharedRecord = SharedRecord(base: Record, ids: Slice, message: Option<Address>)

  datatype SharedDestination = SharedDestination(base: Destination, table: Place)

  /** A ledger; everything but its destinations and deliveries is in rest. */
  datatype SharedLedger = SharedLedger(
    rest: Ledger, destinations: map<string, SharedDestination>, deliveries: map<Id, SharedRecord>)

  predicate LiveRecord(m: Memory, r: SharedRecord) {
    r.ids.at in m.arrays && r.ids.used <= |m.arrays[r.ids.at]| && (r.message.Some? ==> r.message.value in m.boxes)
  }

  predicate LiveRecords(m: Memory, deliveries: map<Id, SharedRecord>) {
    forall k {:trigger deliveries[k]} :: k in deliveries ==> LiveRecord(m, deliveries[k])
  }

  predicate LiveStates(m: Memory, destinations: map<string, SharedDestination>) {
    forall n {:trigger destinations[n]} :: n in destinations ==> destinations[n].table in m.tables
  }

  /** Every pointer of the ledger leads somewhere. */
  predicate Live(m: Memory, l: SharedLedger) {
    LiveRecords(m, l.deliveries) && LiveStates(m, l.destinations)
  }

  function Attempts(m: Memory, s: Slice): seq<Id>
    requires s.at in m.arrays && s.used <= |m.arrays[s.at]|
  {
    m.arrays[s.at][..s.used]
  }

  function RecordValue(m: Memory, r: SharedRecord): Record
    requires LiveRecord(m, r)
  {
    r.base.(attemptIds := Attempts(m, r.ids),
            message := if r.message.Some? then Some(m.boxes[r.message.value]) else None)
  }

  function DestinationValue(m: Memory, d: SharedDestination): Destination
    requires d.table in m.tables
  {
    d.base.(subscriptions := m.tables[d.table])
  }

  function Records(m: Memory, deliveries: map<Id, SharedRecord>): map<Id, Record>
    requires LiveRecords(m, deliveries)
  {
    map k | k in deliveries :: RecordValue(m, deliveries[k])
  }

  function States(m: Memory, destinations: map<string, SharedDestination>): map<string, Destination>
    requires LiveStates(m, destinations)
  {
    map n | n in destinations :: DestinationValue(m, destinations[n])
  }

  /** What a ledger reads as. */
  function Value(m: Memory, l: SharedLedger): Ledger
    requires Live(m, l)
  {
    l.rest.(destinations := States(m, l.destinations), deliveries := Records(m, l.deliveries))
  }

  lemma RecordStays(before: Memory, after: Memory, r: SharedRecord)
    requires Kept(before, after) && LiveRecord(before, r)
    ensures LiveRecord(after, r) && RecordValue(after, r) == RecordValue(before, r)
  {
  }

  /** A ledger reads the same as long as nothing it points to is written. */
  lemma KeptReadsTheSame(before: Memory, after: Memory, l: SharedLedger)
    requires Kept(before, after) && Live(before, l)
    ensures Live(after, l) && Value(after, l) == Value(before, l)
  {
    hide LiveRecord, RecordValue;
    forall k | k in l.deliveries ensures LiveRecord(after, l.deliveries[k])
          && RecordValue(after, l.deliveries[k]) == RecordValue(before, l.deliveries[k]) {
      RecordStays(before, after, l.deliveries[k]);
    }
    forall n | n in l.destinations ensures l.destinations[n].table in after.tables
          && after.tables[l.destinations[n].table] == before.tables[l.destinations[n].table] {
      assert l.destinations[n].table in before.tables;
    }
    assert Records(after, l.deliveries) == Records(before, l.deliveries);
    assert States(after, l.destinations) == States(before, l.destinations);
  }

  // -------------------------------------------------------------------------- cloning

  function Spare(n: nat): seq<Id> {
    seq(n, _ => NO_ID)
  }

  function ClonedRecord(m: Memory, k: Id, r: SharedRecord): SharedRecord {
    SharedRecord(r.base, Slice(Address(m.next, k), r.ids.used),
                 if r.message.Some? then Some(Address(m.next, k)) else None)
  }

  function ClonedDestination(m: Memory, n: string, d: SharedDestination): SharedDestination {
    d.(table := Place(m.next, n))
  }

  function Clone(m: Memory, l: SharedLedger): (out: SharedLedger)
    ensures out.deliveries.Keys == l.deliveries.Keys
  {
    SharedLedger(l.rest, map n | n in l.destinations :: ClonedDestination(m, n, l.destinations[n]),
                 map k | k in l.deliveries :: ClonedRecord(m, k, l.deliveries[k]))
  }

  /** Copied slices get whatever spare room the allocator gives them. */
  function CopiedArrays(m: Memory, l: SharedLedger, room: Id -> nat): (copied: map<Address, seq<Id>>)
    requires Live(m, l)
    ensures forall a :: a in copied ==> a.number == m.next
  {
    map k | k in l.deliveries :: Address(m.next, k) := Attempts(m, l.deliveries[k].ids) + Spare(room(k))
  }

  function CopiedBoxes(m: Memory, l: SharedLedger): (copied: map<Address, Message>)
    requires Live(m, l)
    ensures forall a :: a in copied ==> a.number == m.next
  {
    map k | k in l.deliveries && l.deliveries[k].message.Some? ::
      Address(m.next, k) := m.boxes[l.deliveries[k].message.value]
  }

  function CopiedTables(m: Memory, l: SharedLedger): (copied: map<Place, map<SubKey, Subscription>>)
    requires Live(m, l)
    ensures forall p :: p in copied ==> p.number == m.next
  {
    map n | n in l.destinations :: Place(m.next, n) := m.tables[l.destinations[n].table]
  }

  function CloneMemory(m: Memory, l: SharedLedger, room: Id -> nat): Memory
    requires Live(m, l)
  {
    Memory(m.arrays + CopiedArrays(m, l, room), m.boxes + CopiedBoxes(m, l), m.tables + CopiedTables(m, l), m.next + 1)
  }

  /** Everything the ledger points to was allocated under this number or later. */
  predicate Owned(l: SharedLedger, number: nat) {
    && (forall k {:trigger l.deliveries[k]} :: k in l.deliveries ==>
          number <= l.deliveries[k].ids.at.number
              && (l.deliveries[k].message.Some? ==> number <= l.deliveries[k].message.value.number))
    && (forall n {:trigger l.destinations[n]} :: n in l.destinations ==> number <= l.destinations[n].table.number)
  }

  lemma ClonedRecordReads(m: Memory, l: SharedLedger, room: Id -> nat, k: Id)
    requires Sound(m) && Live(m, l) && k in l.deliveries
    ensures LiveRecord(CloneMemory(m, l, room), Clone(m, l).deliveries[k])
    ensures RecordValue(CloneMemory(m, l, room), Clone(m, l).deliveries[k]) == RecordValue(m, l.deliveries[k])
  {
    var after := CloneMemory(m, l, room);
    var a := Address(m.next, k);
    assert LiveRecord(m, l.deliveries[k]);
    assert after.arrays[a] == Attempts(m, l.deliveries[k].ids) + Spare(room(k));
    assert l.deliveries[k].message.Some? ==> after.boxes[a] == m.boxes[l.deliveries[k].message.value];
  }

  lemma ClonedDestinationReads(m: Memory, l: SharedLedger, room: Id -> nat, n: string)
    requires Sound(m) && Live(m, l) && n in l.destinations
    ensures Clone(m, l).destinations[n].table in CloneMemory(m, l, room).tables
    ensures DestinationValue(CloneMemory(m, l, room), Clone(m, l).destinations[n])
            == DestinationValue(m, l.destinations[n])
  {
    var after := CloneMemory(m, l, room);
    assert after.tables[Place(m.next, n)] == m.tables[l.destinations[n].table];
  }

  lemma CloneWritesNothing(m: Memory, l: SharedLedger, room: Id -> nat)
    requires Sound(m) && Live(m, l)
    ensures Sound(CloneMemory(m, l, room)) && Kept(m, CloneMemory(m, l, room)) && Owned(Clone(m, l), m.next)
  {
    hide CopiedArrays, CopiedBoxes, CopiedTables;
  }

  /** A clone reads as its original, points to nothing its original points to, and writes nothing. */
  lemma CloneIsDeep(m: Memory, l: SharedLedger, room: Id -> nat)
    requires Sound(m) && Live(m, l)
    ensures var after := CloneMemory(m, l, room);
            && Sound(after) && Kept(m, after) && Owned(Clone(m, l), m.next)
            && Live(after, Clone(m, l)) && Value(after, Clone(m, l)) == Value(m, l)
  {
    hide LiveRecord, RecordValue, DestinationValue, CloneMemory, ClonedRecord, ClonedDestination;
    var after, out := CloneMemory(m, l, room), Clone(m, l);
    CloneWritesNothing(m, l, room);
    forall k | k in l.deliveries ensures LiveRecord(after, out.deliveries[k])
          && RecordValue(after, out.deliveries[k]) == RecordValue(m, l.deliveries[k]) {
      ClonedRecordReads(m, l, room, k);
    }
    forall n | n in l.destinations
      ensures out.destinations[n].table in after.tables
                && DestinationValue(after, out.destinations[n]) == DestinationValue(m, l.destinations[n])
    {
      ClonedDestinationReads(m, l, room, n);
    }
    assert Records(after, out.deliveries) == Records(m, l.deliveries);
    assert States(after, out.destinations) == States(m, l.destinations);
  }

  // -------------------------------------------------------------------------- appending

  /** Into the spare room of the array where there is some, else into an array of its own. */
  function Append(m: Memory, s: Slice, id: Id, room: nat): (r: (Memory, Slice))
    requires s.at in m.arrays && s.used <= |m.arrays[s.at]|
  {
    if s.used < |m.arrays[s.at]| then
      (m.(arrays := m.arrays[s.at := m.arrays[s.at][s.used := id]]), Slice(s.at, s.used + 1))
    else
      var at := Address(m.next, s.at.owner);
      (m.(arrays := m.arrays[at := Attempts(m, s) + [id] + Spare(room)], next := m.next + 1), Slice(at, s.used + 1))
  }

  /** What was allocated before number, and every message and table, is as it was. */
  ghost predicate KeptBelow(before: Memory, after: Memory, number: nat) {
    && before.next <= after.next && Extends(before.boxes, after.boxes) && Extends(before.tables, after.tables)
    && forall a :: a in before.arrays && a.number < number ==> a in after.arrays && after.arrays[a] == before.arrays[a]
  }

  lemma KeptBelowKeeps(a: Memory, b: Memory, c: Memory)
    requires Sound(a) && Kept(a, b) && KeptBelow(b, c, a.next)
    ensures Kept(a, c)
  {
  }

  lemma AppendWritesOne(m: Memory, s: Slice, id: Id, room: nat)
    requires Sound(m) && s.at in m.arrays && s.used <= |m.arrays[s.at]| && s.at.number < m.next
    ensures var (after, t) := Append(m, s, id, room);
            && Sound(after) && t.at in after.arrays && t.used <= |after.arrays[t.at]|
            && Attempts(after, t) == Attempts(m, s) + [id]
            && t.at.owner == s.at.owner && s.at.number <= t.at.number && KeptBelow(m, after, s.at.number)
            && forall a :: a in m.arrays && a.owner != s.at.owner ==>
                 a in after.arrays && after.arrays[a] == m.arrays[a]
  {
  }

  /** Deliveries whose attempts are each in an array of their own, allocated under this number or later. */
  predicate Tidy(m: Memory, deliveries: map<Id, SharedRecord>, number: nat) {
    LiveRecords(m, deliveries) && forall k {:trigger deliveries[k]} :: k in deliveries ==>
      deliveries[k].ids.at.owner == k && number <= deliveries[k].ids.at.number
  }

  function ClaimedShared(r: SharedRecord, ids: Slice, attempt: Id, now: Time): SharedRecord {
    SharedRecord(r.base.(status := Claimed, attempts := r.base.attempts + 1,
                         lease := Lease(attempt, now + CLAIM_DURATION)), ids, r.message)
  }

  lemma ElsewhereStays(m: Memory, after: Memory, r: SharedRecord, owner: Id)
    requires LiveRecord(m, r) && r.ids.at.owner != owner && Extends(m.boxes, after.boxes)
    requires forall a :: a in m.arrays && a.owner != owner ==> a in after.arrays && after.arrays[a] == m.arrays[a]
    ensures LiveRecord(after, r) && RecordValue(after, r) == RecordValue(m, r)
  {
  }

  lemma ClaimedReads(m: Memory, r: SharedRecord, attempt: Id, now: Time, room: nat)
    requires Sound(m) && LiveRecord(m, r) && r.ids.at.number < m.next
    ensures var (after, ids) := Append(m, r.ids, attempt, room);
            && LiveRecord(after, ClaimedShared(r, ids, attempt, now))
            && RecordValue(after, ClaimedShared(r, ids, attempt, now))
               == Reducer.ClaimedRecord(RecordValue(m, r), attempt, now)
  {
    AppendWritesOne(m, r.ids, attempt, room);
  }

  /** Claiming one of a clone's records writes to that record's array alone. */
  lemma ClaimOne(m: Memory, deliveries: map<Id, SharedRecord>, number: nat, key: Id, attempt: Id, now: Time, room: nat)
    requires Sound(m) && Tidy(m, deliveries, number) && key in deliveries
    ensures var (after, ids) := Append(m, deliveries[key].ids, attempt, room);
            var next := deliveries[key := ClaimedShared(deliveries[key], ids, attempt, now)];
            && Sound(after) && Tidy(after, next, number) && KeptBelow(m, after, number)
            && Records(after, next)
               == Records(m, deliveries)[key := Reducer.ClaimedRecord(RecordValue(m, deliveries[key]), attempt, now)]
  {
    hide LiveRecord, RecordValue, Reducer.ClaimedRecord;
    var r := deliveries[key];
    RecordIsAllocated(m, r);
    var (after, ids) := Append(m, r.ids, attempt, room);
    AppendWritesOne(m, r.ids, attempt, room);
    ClaimedReads(m, r, attempt, now, room);
    var next := deliveries[key := ClaimedShared(r, ids, attempt, now)];
    forall k | k in deliveries && k != key ensures LiveRecord(after, next[k])
          && RecordValue(after, next[k]) == RecordValue(m, deliveries[k]) {
      ElsewhereStays(m, after, deliveries[k], key);
    }
  }

  lemma RecordIsAllocated(m: Memory, r: SharedRecord)
    requires Sound(m) && LiveRecord(m, r)
    ensures r.ids.at in m.arrays && r.ids.used <= |m.arrays[r.ids.at]| && r.ids.at.number < m.next
  {
  }

  // ------------------------------------------------------------------------- transitions

  /** Memory and result of a transition; what it decides is the reducer's decision on what the ledger reads as. */
  datatype Outcome = Outcome(memory: Memory, result: Result<SharedLedger>)

  /** The transition does what the reducer's step does, and writes to nothing that was there before it. */
  ghost predicate Refines(m: Memory, l: SharedLedger, o: Outcome, step: Reducer.Step)
    requires Live(m, l)
  {
    && Sound(o.memory) && Kept(m, o.memory) && (o.result.Ok? ==> Live(o.memory, o.result.value))
    && match step
       case Keep => o.result.Ok? && Value(o.memory, o.result.value) == Value(m, l)
       case Next(ledger) => o.result.Ok? && Value(o.memory, o.result.value) == ledger
       case Fails(error) => o.result == Err(error)
  }

  lemma ReplacedRecord(m: Memory, deliveries: map<Id, SharedRecord>, key: Id, r: SharedRecord)
    requires LiveRecords(m, deliveries) && LiveRecord(m, r)
    ensures LiveRecords(m, deliveries[key := r])
    ensures Records(m, deliveries[key := r]) == Records(m, deliveries)[key := RecordValue(m, r)]
  {
    hide LiveRecord, RecordValue;
  }

  lemma ReplacedState(m: Memory, destinations: map<string, SharedDestination>, n: string, d: SharedDestination)
    requires LiveStates(m, destinations) && d.table in m.tables
    ensures LiveStates(m, destinations[n := d])
    ensures States(m, destinations[n := d]) == States(m, destinations)[n := DestinationValue(m, d)]
  {
  }

  lemma StatesStay(before: Memory, after: Memory, destinations: map<string, SharedDestination>)
    requires LiveStates(before, destinations) && Extends(before.tables, after.tables)
    ensures LiveStates(after, destinations) && States(after, destinations) == States(before, destinations)
  {
    forall n | n in destinations ensures destinations[n].table in after.tables
          && after.tables[destinations[n].table] == before.tables[destinations[n].table] {
      assert destinations[n].table in before.tables;
    }
  }

  function Leased(d: SharedDestination, lease: Lease, nextSendAt: Time): SharedDestination {
    d.(base := d.base.(lease := lease, nextSendAt := nextSendAt))
  }

  /** The two parts a transition may rewrite. */
  ghost predicate Reads(m: Memory, l: SharedLedger, rest: Ledger, deliveries: map<Id, Record>,
          destinations: map<string, Destination>) {
    && Live(m, l) && l.rest == rest && Records(m, l.deliveries) == deliveries
    && States(m, l.destinations) == destinations
  }

  lemma ReadsAs(m: Memory, l: SharedLedger, after: Memory, out: SharedLedger, deliveries: map<Id, Record>,
          destinations: map<string, Destination>)
    requires Live(m, l) && Reads(after, out, l.rest, deliveries, destinations)
    ensures Live(after, out)
    ensures Value(after, out) == Value(m, l).(deliveries := deliveries, destinations := destinations)
  {
  }

  // --------------------------------------------------------------------- saving messages

  function Boxed(cloned: Memory, key: Id, message: Message): Memory {
    cloned.(boxes := cloned.boxes[Address(cloned.next, key) := message], next := cloned.next + 1)
  }

  /** The message goes behind a pointer of its own; the attempts stay in the input's array. */
  function WithMessage(l: SharedLedger, out: SharedLedger, key: Id, box: Address): SharedLedger
    requires key in l.deliveries
  {
    out.(deliveries := out.deliveries[key := l.deliveries[key].(message := Some(box))])
  }

  function SaveMessage(m: Memory, l: SharedLedger, configOid: Oid, key: Id, message: Message, room: Id -> nat): Outcome
    requires Live(m, l)
  {
    match Reducer.SaveStep(Value(m, l), configOid, key, message)
    case Fails(error) => Outcome(m, Err(error))
    case Keep => Outcome(CloneMemory(m, l, room), Ok(Clone(m, l)))
    case Next(_) =>
      var cloned := CloneMemory(m, l, room);
      Outcome(Boxed(cloned, key, message), Ok(WithMessage(l, Clone(m, l), key, Address(cloned.next, key))))
  }

  lemma SavedReads(m: Memory, after: Memory, r: SharedRecord, box: Address, message: Message)
    requires LiveRecord(m, r) && Kept(m, after) && box in after.boxes && after.boxes[box] == message
    ensures LiveRecord(after, r.(message := Some(box)))
    ensures RecordValue(after, r.(message := Some(box))) == RecordValue(m, r).(message := Some(message))
  {
  }

  lemma BoxedIsKept(cloned: Memory, key: Id, message: Message)
    requires Sound(cloned)
    ensures var after := Boxed(cloned, key, message);
            Sound(after) && Kept(cloned, after) && Address(cloned.next, key) in after.boxes
                  && after.boxes[Address(cloned.next, key)] == message
  {
    assert Address(cloned.next, key) !in cloned.boxes;
  }

  lemma SaveWrites(m: Memory, l: SharedLedger, key: Id, message: Message, room: Id -> nat)
    requires Sound(m) && Live(m, l) && key in l.deliveries
    ensures var cloned := CloneMemory(m, l, room);
            var after := Boxed(cloned, key, message);
            && Sound(after) && Kept(m, after)
            && Reads(after, WithMessage(l, Clone(m, l), key, Address(cloned.next, key)), l.rest,
                     Records(m, l.deliveries)[key := RecordValue(m, l.deliveries[key]).(message := Some(message))],
                           States(m, l.destinations))
  {
    hide CloneMemory, Boxed, LiveRecord, RecordValue, States;
    CloneIsDeep(m, l, room);
    var cloned, out := CloneMemory(m, l, room), Clone(m, l);
    var after, box := Boxed(cloned, key, message), Address(cloned.next, key);
    BoxedIsKept(cloned, key, message);
    KeptTransitive(m, cloned, after);
    KeptReadsTheSame(cloned, after, out);
    SavedReads(m, after, l.deliveries[key], box, message);
    ReplacedRecord(after, out.deliveries, key, l.deliveries[key].(message := Some(box)));
  }

  lemma SaveMessageRefines(m: Memory, l: SharedLedger, configOid: Oid, key: Id, message: Message, room: Id -> nat)
    requires Sound(m) && Live(m, l)
    ensures Refines(m, l, SaveMessage(m, l, configOid, key, message, room),
                    Reducer.SaveStep(Value(m, l), configOid, key, message))
  {
    hide CloneMemory, Clone, Boxed, WithMessage, Kept, LiveRecord, Sound, Reads, Text.ByteLen, RecordValue;
    KeptItself(m);
    CloneIsDeep(m, l, room);
    if Reducer.SaveStep(Value(m, l), configOid, key, message).Next? {
      SaveWrites(m, l, key, message, room);
      var cloned := CloneMemory(m, l, room);
      ReadsAs(m, l, Boxed(cloned, key, message), WithMessage(l, Clone(m, l), key, Address(cloned.next, key)),
              Records(m, l.deliveries)[key := RecordValue(m, l.deliveries[key]).(message := Some(message))],
                  States(m, l.destinations));
    }
  }

  // ----------------------------------------------------------------------- single claims

  /** The attempt is appended to the clone's slice; the destination keeps the input's subscriptions. */
  function WithClaim(l: SharedLedger, out: SharedLedger, key: Id, ids: Slice, attempt: Id, now: Time): SharedLedger
    requires key in out.deliveries && out.deliveries[key].base.destination in l.destinations
  {
    var d := l.destinations[out.deliveries[key].base.destination];
    out.(deliveries := out.deliveries[key := ClaimedShared(out.deliveries[key], ids, attempt, now)],
         destinations := out.destinations[d.base.name := Leased(d, Lease(attempt, now + CLAIM_DURATION), now + SECOND)])
  }

  function Claim(m: Memory, l: SharedLedger, configOid: Oid, key: Id, attempt: Id, now: Time, room: Id -> nat,
          more: nat): Outcome
    requires Sound(m) && Live(m, l)
  {
    match Reducer.ClaimStep(Value(m, l), configOid, key, attempt, now)
    case Fails(error) => Outcome(m, Err(error))
    case Keep => Outcome(CloneMemory(m, l, room), Ok(Clone(m, l)))
    case Next(_) =>
      CloneIsDeep(m, l, room);
      var out := Clone(m, l);
      assert LiveRecord(CloneMemory(m, l, room), out.deliveries[key]);
      var (after, ids) := Append(CloneMemory(m, l, room), out.deliveries[key].ids, attempt, more);
      Outcome(after, Ok(WithClaim(l, out, key, ids, attempt, now)))
  }

  lemma CloneIsTidy(m: Memory, l: SharedLedger, room: Id -> nat)
    requires Sound(m) && Live(m, l)
    ensures Tidy(CloneMemory(m, l, room), Clone(m, l).deliveries, m.next)
  {
    hide CloneMemory, LiveRecord;
    CloneIsDeep(m, l, room);
  }

  lemma ClaimWrites(m: Memory, l: SharedLedger, key: Id, attempt: Id, now: Time, room: Id -> nat, more: nat)
    requires Sound(m) && Live(m, l) && key in l.deliveries && l.deliveries[key].base.destination in l.destinations
    ensures var cloned, out := CloneMemory(m, l, room), Clone(m, l);
            LiveRecord(cloned, out.deliveries[key])
            && var (after, ids) := Append(cloned, out.deliveries[key].ids, attempt, more);
               var d := DestinationValue(m, l.destinations[l.deliveries[key].base.destination]);
               && Sound(after) && Kept(m, after)
               && Reads(after, WithClaim(l, out, key, ids, attempt, now), l.rest,
                        Records(m, l.deliveries)[
                          key := Reducer.ClaimedRecord(RecordValue(m, l.deliveries[key]), attempt, now)],
                        States(m, l.destinations)[
                          d.name := d.(lease := Lease(attempt, now + CLAIM_DURATION), nextSendAt := now + SECOND)])
  {
    hide CloneMemory, Append, LiveRecord, RecordValue, Reducer.ClaimedRecord;
    CloneIsDeep(m, l, room);
    CloneIsTidy(m, l, room);
    var cloned, out := CloneMemory(m, l, room), Clone(m, l);
    RecordIsAllocated(cloned, out.deliveries[key]);
    ClaimOne(cloned, out.deliveries, m.next, key, attempt, now, more);
    var after := Append(cloned, out.deliveries[key].ids, attempt, more).0;
    KeptBelowKeeps(m, cloned, after);
    StatesStay(cloned, after, out.destinations);
    var d := l.destinations[out.deliveries[key].base.destination];
    assert d.table in m.tables;
    ReplacedState(after, out.destinations, d.base.name, Leased(d, Lease(attempt, now + CLAIM_DURATION), now + SECOND));
  }

  /** How a delivery and its destination read, as parts of the whole. */
  lemma ReadsAt(m: Memory, l: SharedLedger, key: Id)
    requires Live(m, l) && key in Value(m, l).deliveries
    requires Value(m, l).deliveries[key].destination in Value(m, l).destinations
    ensures key in l.deliveries && LiveRecord(m, l.deliveries[key])
    ensures Value(m, l).deliveries[key] == RecordValue(m, l.deliveries[key])
    ensures var n := l.deliveries[key].base.destination;
            && n == Value(m, l).deliveries[key].destination && n in l.destinations
            && l.destinations[n].table in m.tables
            && Value(m, l).destinations[n] == DestinationValue(m, l.destinations[n])
    ensures Value(m, l).deliveries == Records(m, l.deliveries) && Value(m, l).destinations == States(m, l.destinations)
  {
  }

  /** What the reducer's claim rewrites. */
  lemma ClaimStepFacts(l: Ledger, configOid: Oid, key: Id, attempt: Id, now: Time)
    requires Reducer.ClaimStep(l, configOid, key, attempt, now).Next?
    ensures key in l.deliveries && l.deliveries[key].destination in l.destinations
    ensures var d := l.destinations[l.deliveries[key].destination];
            Reducer.ClaimStep(l, configOid, key, attempt, now).ledger
            == l.(deliveries := l.deliveries[key := Reducer.ClaimedRecord(l.deliveries[key], attempt, now)],
                  destinations := l.destinations[d.name := d.(lease := Lease(attempt, now + CLAIM_DURATION),
                        nextSendAt := now + SECOND)])
  {
    hide Reducer.ClaimedRecord;
  }

  lemma ClaimRefines(m: Memory, l: SharedLedger, configOid: Oid, key: Id, attempt: Id, now: Time, room: Id -> nat,
          more: nat)
    requires Sound(m) && Live(m, l)
    ensures Refines(m, l, Claim(m, l, configOid, key, attempt, now, room, more),
              Reducer.ClaimStep(Value(m, l), configOid, key, attempt, now))
  {
    hide CloneMemory, Append, WithClaim, Kept, LiveRecord, Sound, Reads, RecordValue, Records, States,
          DestinationValue, Reducer.ClaimedRecord,
         Reducer.ClaimStep, Value;
    KeptItself(m);
    CloneIsDeep(m, l, room);
    ClaimNeverKeeps(Value(m, l), configOid, key, attempt, now);
    if Reducer.ClaimStep(Value(m, l), configOid, key, attempt, now).Next? {
      ClaimStepFacts(Value(m, l), configOid, key, attempt, now);
      ReadsAt(m, l, key);
      ClaimWrites(m, l, key, attempt, now, room, more);
      var out := Clone(m, l);
      RecordIsAllocated(CloneMemory(m, l, room), out.deliveries[key]);
      var (after, ids) := Append(CloneMemory(m, l, room), out.deliveries[key].ids, attempt, more);
      var d := DestinationValue(m, l.destinations[l.deliveries[key].base.destination]);
      ReadsAs(m, l, after, WithClaim(l, out, key, ids, attempt, now),
              Records(m, l.deliveries)[key := Reducer.ClaimedRecord(RecordValue(m, l.deliveries[key]), attempt, now)],
              States(m, l.destinations)[d.name := d.(lease := Lease(attempt, now + CLAIM_DURATION),
                                                     nextSendAt := now + SECOND)]);
    }
  }

  lemma ClaimNeverKeeps(l: Ledger, configOid: Oid, key: Id, attempt: Id, now: Time)
    ensures !Reducer.ClaimStep(l, configOid, key, attempt, now).Keep?
  {
  }

  // -------------------------------------------------------------------------- renewals

  function Extended(r: SharedRecord, until: Time): SharedRecord {
    r.(base := r.base.(lease := Lease(r.base.lease.attemptId, until)))
  }

  /** The input's own record and destination, pointers and all, with a longer lease. */
  function WithRenewal(l: SharedLedger, out: SharedLedger, key: Id, until: Time): SharedLedger
    requires key in l.deliveries && l.deliveries[key].base.destination in l.destinations
  {
    var d := l.destinations[l.deliveries[key].base.destination];
    out.(deliveries := out.deliveries[key := Extended(l.deliveries[key], until)],
         destinations := out.destinations[d.base.name
               := Leased(d, Lease(l.deliveries[key].base.lease.attemptId, until), d.base.nextSendAt)])
  }

  lemma RenewStepFacts(l: Ledger, configOid: Oid, key: Id, attempt: Id, now: Time)
    requires Reducer.RenewClaim(l, configOid, key, attempt, now).Next?
    ensures key in l.deliveries && l.deliveries[key].destination in l.destinations
    ensures l.deliveries[key].lease.attemptId == attempt
    ensures var d := l.destinations[l.deliveries[key].destination];
            var lease := Lease(attempt, now + CLAIM_DURATION);
            Reducer.RenewClaim(l, configOid, key, attempt, now).ledger
            == l.(deliveries := l.deliveries[key := l.deliveries[key].(lease := lease)],
                  destinations := l.destinations[d.name := d.(lease := lease)])
  {
  }

  function RenewClaim(m: Memory, l: SharedLedger, configOid: Oid, key: Id, attempt: Id, now: Time,
          room: Id -> nat): Outcome
    requires Live(m, l)
  {
    match Reducer.RenewClaim(Value(m, l), configOid, key, attempt, now)
    case Fails(error) => Outcome(m, Err(error))
    case Keep => Outcome(CloneMemory(m, l, room), Ok(Clone(m, l)))
    case Next(_) =>
      RenewStepFacts(Value(m, l), configOid, key, attempt, now);
      Outcome(CloneMemory(m, l, room), Ok(WithRenewal(l, Clone(m, l), key, now + CLAIM_DURATION)))
  }

  lemma ExtendedReads(m: Memory, after: Memory, r: SharedRecord, until: Time)
    requires LiveRecord(m, r) && Kept(m, after)
    ensures LiveRecord(after, Extended(r, until))
    ensures RecordValue(after, Extended(r, until))
            == RecordValue(m, r).(lease := Lease(RecordValue(m, r).lease.attemptId, until))
  {
  }

  lemma RenewWrites(m: Memory, l: SharedLedger, key: Id, until: Time, room: Id -> nat)
    requires Sound(m) && Live(m, l) && key in l.deliveries && l.deliveries[key].base.destination in l.destinations
    ensures var after := CloneMemory(m, l, room);
            var d, r := DestinationValue(m, l.destinations[l.deliveries[key].base.destination]),
                RecordValue(m, l.deliveries[key]);
            var lease := Lease(l.deliveries[key].base.lease.attemptId, until);
            && Sound(after) && Kept(m, after)
            && Reads(after, WithRenewal(l, Clone(m, l), key, until), l.rest,
                     Records(m, l.deliveries)[key := r.(lease := lease)],
                     States(m, l.destinations)[d.name := d.(lease := lease)])
  {
    hide CloneMemory, LiveRecord, RecordValue, Extended;
    CloneIsDeep(m, l, room);
    var after, out := CloneMemory(m, l, room), Clone(m, l);
    ExtendedReads(m, after, l.deliveries[key], until);
    RecordLease(m, l.deliveries[key]);
    ReplacedRecord(after, out.deliveries, key, Extended(l.deliveries[key], until));
    var d := l.destinations[l.deliveries[key].base.destination];
    assert d.table in m.tables;
    ReplacedState(after, out.destinations, d.base.name,
                  Leased(d, Lease(l.deliveries[key].base.lease.attemptId, until), d.base.nextSendAt));
  }

  lemma RecordLease(m: Memory, r: SharedRecord)
    requires LiveRecord(m, r)
    ensures RecordValue(m, r).lease == r.base.lease
  {
  }

  lemma RenewClaimRefines(m: Memory, l: SharedLedger, configOid: Oid, key: Id, attempt: Id, now: Time, room: Id -> nat)
    requires Sound(m) && Live(m, l)
    ensures Refines(m, l, RenewClaim(m, l, configOid, key, attempt, now, room),
              Reducer.RenewClaim(Value(m, l), configOid, key, attempt, now))
  {
    hide CloneMemory, WithRenewal, Kept, LiveRecord, Sound, Reads, RecordValue, Records, States, DestinationValue,
          Reducer.RenewClaim, Value;
    KeptItself(m);
    CloneIsDeep(m, l, room);
    if Reducer.RenewClaim(Value(m, l), configOid, key, attempt, now).Next? {
      RenewStepFacts(Value(m, l), configOid, key, attempt, now);
      ReadsAt(m, l, key);
      RecordLease(m, l.deliveries[key]);
      RenewWrites(m, l, key, now + CLAIM_DURATION, room);
      var lease := Lease(attempt, now + CLAIM_DURATION);
      var d, r :=
          DestinationValue(m, l.destinations[l.deliveries[key].base.destination]), RecordValue(m, l.deliveries[key]);
      ReadsAs(m, l, CloneMemory(m, l, room), WithRenewal(l, Clone(m, l), key, now + CLAIM_DURATION),
              Records(m, l.deliveries)[key := r.(lease := lease)],
                  States(m, l.destinations)[d.name := d.(lease := lease)]);
    }
  }

  // ---------------------------------------------------------------------- batch claims

  datatype SharedClaims = SharedClaims(memory: Memory, deliveries: map<Id, SharedRecord>, claimed: seq<Id>)

  /** The loop over the batch's keys, each append going into the clone's arrays. */
  function ClaimKeys(m: Memory, deliveries: map<Id, SharedRecord>, number: nat, l: Ledger, d: Destination,
          destination: string, keys: seq<Id>, attempts: map<Id, Id>, now: Time, more: nat): (r: Result<SharedClaims>)
    requires Sound(m) && Tidy(m, deliveries, number)
    ensures r.Ok? ==>
              Sound(r.value.memory) && Tidy(r.value.memory, r.value.deliveries, number)
              && KeptBelow(m, r.value.memory, number)
  {
    if keys == [] then Ok(SharedClaims(m, deliveries, []))
    else
      var before := ClaimKeys(m, deliveries, number, l, d, destination, keys[..|keys| - 1], attempts, now, more);
      if before.Err? then before
      else
        var key := keys[|keys| - 1];
        var attempt := if key in attempts then attempts[key] else NO_ID;
        if key !in before.value.deliveries || before.value.deliveries[key].base.destination != destination
              || Reducer.BadAttempt(attempt) then
          Err(InvalidState)
        else
          var r := RecordValue(before.value.memory, before.value.deliveries[key]);
          if !Reducer.BatchKeyDue(l, d, r, now) then before
          else if attempt in r.attemptIds then Err(InvalidState)
          else
            ClaimOne(before.value.memory, before.value.deliveries, number, key, attempt, now, more);
            var (after, ids) := Append(before.value.memory, before.value.deliveries[key].ids, attempt, more);
            var r := ClaimedShared(before.value.deliveries[key], ids, attempt, now);
            Ok(SharedClaims(after, before.value.deliveries[key := r], before.value.claimed + [key]))
  }

  lemma {:induction false} ClaimKeysRefines(m: Memory, deliveries: map<Id, SharedRecord>, number: nat, l: Ledger,
          d: Destination, destination: string, keys: seq<Id>, attempts: map<Id, Id>, now: Time, more: nat)
    requires Sound(m) && Tidy(m, deliveries, number) && l.deliveries == Records(m, deliveries)
    ensures var r := ClaimKeys(m, deliveries, number, l, d, destination, keys, attempts, now, more);
            var v := Reducer.ClaimKeys(l, d, destination, keys, attempts, now);
            if v.Err? then r == Err(v.error)
            else r.Ok? && Records(r.value.memory, r.value.deliveries) == v.value.deliveries
                 && r.value.claimed == v.value.claimed
  {
    hide Sound, Tidy, KeptBelow, Append, RecordValue, LiveRecord, Reducer.ClaimedRecord, Reducer.BatchKeyDue;
    hide Reducer.BadAttempt;
    if keys != [] {
      ClaimKeysRefines(m, deliveries, number, l, d, destination, keys[..|keys| - 1], attempts, now, more);
      var before := ClaimKeys(m, deliveries, number, l, d, destination, keys[..|keys| - 1], attempts, now, more);
      var key := keys[|keys| - 1];
      if before.Ok? && key in before.value.deliveries {
        TidyReads(before.value.memory, before.value.deliveries, number, key);
        ClaimOne(before.value.memory, before.value.deliveries, number, key,
                 if key in attempts then attempts[key] else NO_ID, now, more);
      }
    }
  }

  lemma TidyReads(m: Memory, deliveries: map<Id, SharedRecord>, number: nat, key: Id)
    requires Tidy(m, deliveries, number) && key in deliveries
    ensures LiveRecords(m, deliveries) && LiveRecord(m, deliveries[key])
    ensures Records(m, deliveries)[key] == RecordValue(m, deliveries[key])
    ensures RecordValue(m, deliveries[key]).destination == deliveries[key].base.destination
    ensures deliveries[key].ids.at in m.arrays && deliveries[key].ids.used <= |m.arrays[deliveries[key].ids.at]|
  {
  }

  datatype BatchOutcome = BatchOutcome(outcome: Outcome, claimed: seq<Id>)

  /** The claimed records are the clone's, the destination the input's with a lease of the batch. */
  function ClaimBatch(m: Memory, l: SharedLedger, configOid: Oid, destination: string, batch: Id, keys: seq<Id>,
          attempts: map<Id, Id>, now: Time, room: Id -> nat, more: nat): BatchOutcome
    requires Sound(m) && Live(m, l)
  {
    var step := Reducer.ClaimBatchStep(Value(m, l), configOid, destination, batch, keys, attempts, now);
    if step.Err? then BatchOutcome(Outcome(m, Err(step.error)), [])
    else
      CloneIsDeep(m, l, room);
      CloneIsTidy(m, l, room);
      ClaimBatchFacts(Value(m, l), configOid, destination, batch, keys, attempts, now);
      var out, d := Clone(m, l), l.destinations[destination];
      var claims := ClaimKeys(CloneMemory(m, l, room), out.deliveries, m.next, Value(m, l), DestinationValue(m, d),
            destination, keys, attempts, now, more);
      if claims.Err? then BatchOutcome(Outcome(m, Err(claims.error)), [])
      else BatchOutcome(Outcome(claims.value.memory,
            Ok(WithBatch(l, out, destination, claims.value.deliveries, batch, now))), claims.value.claimed)
  }

  function WithBatch(l: SharedLedger, out: SharedLedger, destination: string, deliveries: map<Id, SharedRecord>,
          batch: Id, now: Time): SharedLedger
    requires destination in l.destinations
  {
    var d := l.destinations[destination];
    out.(deliveries := deliveries,
          destinations := out.destinations[d.base.name := Leased(d, Lease(batch, now + CLAIM_DURATION), now + SECOND)])
  }

  lemma ClaimBatchFacts(l: Ledger, configOid: Oid, destination: string, batch: Id, keys: seq<Id>, attempts: map<Id, Id>,
          now: Time)
    requires Reducer.ClaimBatchStep(l, configOid, destination, batch, keys, attempts, now).Ok?
    ensures destination in l.destinations
    ensures var d := l.destinations[destination];
            var claims := Reducer.ClaimKeys(l, d, destination, keys, attempts, now);
            var step := Reducer.ClaimBatchStep(l, configOid, destination, batch, keys, attempts, now);
            && claims.Ok? && step.value.claimed == claims.value.claimed
            && step.value.ledger
               == l.(deliveries := claims.value.deliveries,
                     destinations := l.destinations[d.name := d.(lease := Lease(batch, now + CLAIM_DURATION),
                           nextSendAt := now + SECOND)])
  {
    hide Reducer.ClaimKeys;
  }

  lemma BatchWrites(m: Memory, l: SharedLedger, destination: string, batch: Id, keys: seq<Id>, attempts: map<Id, Id>,
          now: Time, room: Id -> nat, more: nat)
    requires Sound(m) && Live(m, l) && destination in l.destinations
    requires Tidy(CloneMemory(m, l, room), Clone(m, l).deliveries, m.next)
    requires Sound(CloneMemory(m, l, room))
    requires Reducer.ClaimKeys(Value(m, l), DestinationValue(m, l.destinations[destination]), destination, keys,
                               attempts, now).Ok?
    ensures var d := DestinationValue(m, l.destinations[destination]);
            var claims := ClaimKeys(CloneMemory(m, l, room), Clone(m, l).deliveries, m.next, Value(m, l), d,
                  destination, keys, attempts, now, more);
            var values := Reducer.ClaimKeys(Value(m, l), d, destination, keys, attempts, now).value;
            && claims.Ok? && claims.value.claimed == values.claimed && Sound(claims.value.memory)
            && Kept(m, claims.value.memory)
            && Reads(claims.value.memory, WithBatch(l, Clone(m, l), destination, claims.value.deliveries, batch, now),
                  l.rest, values.deliveries,
                     States(m, l.destinations)[d.name := d.(lease := Lease(batch, now + CLAIM_DURATION),
                                                            nextSendAt := now + SECOND)])
  {
    hide CloneMemory, LiveRecord, RecordValue, ClaimKeys, Reducer.ClaimKeys;
    CloneIsDeep(m, l, room);
    var cloned, out, d := CloneMemory(m, l, room), Clone(m, l), l.destinations[destination];
    ClaimKeysRefines(cloned, out.deliveries, m.next, Value(m, l), DestinationValue(m, d), destination, keys, attempts,
                     now, more);
    var after := ClaimKeys(cloned, out.deliveries, m.next, Value(m, l), DestinationValue(m, d), destination, keys,
          attempts, now, more).value.memory;
    KeptBelowKeeps(m, cloned, after);
    StatesStay(cloned, after, out.destinations);
    assert d.table in m.tables;
    ReplacedState(after, out.destinations, d.base.name, Leased(d, Lease(batch, now + CLAIM_DURATION), now + SECOND));
  }

  lemma ClaimBatchRefines(m: Memory, l: SharedLedger, configOid: Oid, destination: string, batch: Id, keys: seq<Id>,
          attempts: map<Id, Id>, now: Time, room: Id -> nat, more: nat)
    requires Sound(m) && Live(m, l)
    ensures var step := Reducer.ClaimBatchStep(Value(m, l), configOid, destination, batch, keys, attempts, now);
            var r := ClaimBatch(m, l, configOid, destination, batch, keys, attempts, now, room, more);
            && Refines(m, l, r.outcome, if step.Ok? then Reducer.Next(step.value.ledger) else Reducer.Fails(step.error))
            && (step.Ok? ==> r.claimed == step.value.claimed)
  {
    hide CloneMemory, Clone, WithBatch, Kept, LiveRecord, Sound, Reads, RecordValue, Records, States, DestinationValue,
          Reducer.ClaimBatchStep,
         Value, ClaimKeys, Reducer.ClaimKeys, Tidy;
    KeptItself(m);
    CloneIsDeep(m, l, room);
    CloneIsTidy(m, l, room);
    if Reducer.ClaimBatchStep(Value(m, l), configOid, destination, batch, keys, attempts, now).Ok? {
      ClaimBatchFacts(Value(m, l), configOid, destination, batch, keys, attempts, now);
      StateReadsAt(m, l, destination);
      BatchWrites(m, l, destination, batch, keys, attempts, now, room, more);
      var d := DestinationValue(m, l.destinations[destination]);
      var claims := ClaimKeys(CloneMemory(m, l, room), Clone(m, l).deliveries, m.next, Value(m, l), d, destination,
            keys, attempts, now, more);
      ReadsAs(m, l, claims.value.memory, WithBatch(l, Clone(m, l), destination, claims.value.deliveries, batch, now),
              Reducer.ClaimKeys(Value(m, l), d, destination, keys, attempts, now).value.deliveries,
              States(m, l.destinations)[d.name := d.(lease := Lease(batch, now + CLAIM_DURATION),
                                                     nextSendAt := now + SECOND)]);
    }
  }

  lemma StateReadsAt(m: Memory, l: SharedLedger, n: string)
    requires Live(m, l) && n in Value(m, l).destinations
    ensures n in l.destinations && l.destinations[n].table in m.tables
              && Value(m, l).destinations[n] == DestinationValue(m, l.destinations[n])
    ensures Value(m, l).deliveries == Records(m, l.deliveries) && Value(m, l).destinations == States(m, l.destinations)
  {
  }

  // --------------------------------------------------------------------- batch renewals

  /** The clone's records with longer leases, and the input's destination. */
  function WithRenewals(m: Memory, l: SharedLedger, out: SharedLedger, destination: string, attempts: map<Id, Id>,
          now: Time): SharedLedger
    requires Live(m, l) && destination in l.destinations && out.deliveries.Keys == l.deliveries.Keys
  {
    var d := l.destinations[destination];
    out.(deliveries := map k | k in out.deliveries ::
           if k in attempts
             && Reducer.Renewable(DestinationValue(m, d), RecordValue(m, l.deliveries[k]), attempts[k], now)
           then Extended(out.deliveries[k], now + CLAIM_DURATION) else out.deliveries[k],
         destinations := out.destinations[
           d.base.name := Leased(d, Lease(d.base.lease.attemptId, now + CLAIM_DURATION), d.base.nextSendAt)])
  }

  lemma RenewBatchFacts(l: Ledger, configOid: Oid, destination: string, batch: Id, attempts: map<Id, Id>, now: Time)
    requires Reducer.RenewBatch(l, configOid, destination, batch, attempts, now).Next?
    ensures destination in l.destinations && l.destinations[destination].lease.attemptId == batch
    ensures var d := l.destinations[destination];
            Reducer.RenewBatch(l, configOid, destination, batch, attempts, now).ledger
            == l.(deliveries := Reducer.RenewedDeliveries(l, d, attempts, now),
                  destinations := l.destinations[d.name := d.(lease := Lease(batch, now + CLAIM_DURATION))])
  {
    hide Reducer.RenewedDeliveries;
  }

  function RenewBatch(m: Memory, l: SharedLedger, configOid: Oid, destination: string, batch: Id, attempts: map<Id, Id>,
          now: Time, room: Id -> nat): Outcome
    requires Live(m, l)
  {
    match Reducer.RenewBatch(Value(m, l), configOid, destination, batch, attempts, now)
    case Fails(error) => Outcome(m, Err(error))
    case Keep => Outcome(CloneMemory(m, l, room), Ok(Clone(m, l)))
    case Next(_) =>
      RenewBatchFacts(Value(m, l), configOid, destination, batch, attempts, now);
      Outcome(CloneMemory(m, l, room), Ok(WithRenewals(m, l, Clone(m, l), destination, attempts, now)))
  }

  lemma RenewedReads(m: Memory, l: SharedLedger, destination: string, attempts: map<Id, Id>, now: Time,
          room: Id -> nat, k: Id)
    requires Sound(m) && Live(m, l) && destination in l.destinations && k in l.deliveries
    ensures var r := WithRenewals(m, l, Clone(m, l), destination, attempts, now).deliveries[k];
            var d := DestinationValue(m, l.destinations[destination]);
            && LiveRecord(CloneMemory(m, l, room), r)
            && RecordValue(CloneMemory(m, l, room), r) == Reducer.RenewedDeliveries(Value(m, l), d, attempts, now)[k]
  {
    hide CloneMemory, Clone, Value;
    CloneIsDeep(m, l, room);
    ClonedRecordReads(m, l, room, k);
    ValueAt(m, l, k);
    KeptItself(CloneMemory(m, l, room));
    ExtendedReads(CloneMemory(m, l, room), CloneMemory(m, l, room), Clone(m, l).deliveries[k], now + CLAIM_DURATION);
  }

  lemma ValueAt(m: Memory, l: SharedLedger, k: Id)
    requires Live(m, l) && k in l.deliveries
    ensures k in Value(m, l).deliveries && Value(m, l).deliveries[k] == RecordValue(m, l.deliveries[k])
    ensures k in Clone(m, l).deliveries
    ensures Clone(m, l).deliveries.Keys == l.deliveries.Keys == Value(m, l).deliveries.Keys
  {
  }

  lemma RenewalsWrite(m: Memory, l: SharedLedger, destination: string, attempts: map<Id, Id>, now: Time,
          room: Id -> nat)
    requires Sound(m) && Live(m, l) && destination in l.destinations
    ensures var d := DestinationValue(m, l.destinations[destination]);
            && Sound(CloneMemory(m, l, room)) && Kept(m, CloneMemory(m, l, room))
            && Reads(CloneMemory(m, l, room), WithRenewals(m, l, Clone(m, l), destination, attempts, now), l.rest,
                     Reducer.RenewedDeliveries(Value(m, l), d, attempts, now),
                     States(m, l.destinations)[d.name := d.(lease := Lease(d.lease.attemptId, now + CLAIM_DURATION))])
  {
    hide CloneMemory, LiveRecord, RecordValue, Reducer.Renewable, Extended;
    CloneIsDeep(m, l, room);
    var after, out, d := CloneMemory(m, l, room), Clone(m, l), l.destinations[destination];
    var renewed := WithRenewals(m, l, out, destination, attempts, now);
    var values := Reducer.RenewedDeliveries(Value(m, l), DestinationValue(m, d), attempts, now);
    forall k | k in renewed.deliveries ensures LiveRecord(after, renewed.deliveries[k])
          && RecordValue(after, renewed.deliveries[k]) == values[k] {
      RenewedReads(m, l, destination, attempts, now, room, k);
    }
    assert Records(after, renewed.deliveries) == values;
    assert d.table in m.tables;
    ReplacedState(after, out.destinations, d.base.name,
                  Leased(d, Lease(d.base.lease.attemptId, now + CLAIM_DURATION), d.base.nextSendAt));
  }

  lemma RenewBatchRefines(m: Memory, l: SharedLedger, configOid: Oid, destination: string, batch: Id,
          attempts: map<Id, Id>, now: Time, room: Id -> nat)
    requires Sound(m) && Live(m, l)
    ensures Refines(m, l, RenewBatch(m, l, configOid, destination, batch, attempts, now, room),
                    Reducer.RenewBatch(Value(m, l), configOid, destination, batch, attempts, now))
  {
    hide CloneMemory, Clone, WithRenewals, Kept, LiveRecord, Sound, Reads, RecordValue, Records, States,
        DestinationValue, Value,
         Reducer.RenewBatch, Reducer.RenewedDeliveries;
    KeptItself(m);
    CloneIsDeep(m, l, room);
    if Reducer.RenewBatch(Value(m, l), configOid, destination, batch, attempts, now).Next? {
      RenewBatchFacts(Value(m, l), configOid, destination, batch, attempts, now);
      StateReadsAt(m, l, destination);
      RenewalsWrite(m, l, destination, attempts, now, room);
      var d := DestinationValue(m, l.destinations[destination]);
      ReadsAs(m, l, CloneMemory(m, l, room), WithRenewals(m, l, Clone(m, l), destination, attempts, now),
              Reducer.RenewedDeliveries(Value(m, l), d, attempts, now),
              States(m, l.destinations)[d.name := d.(lease := Lease(batch, now + CLAIM_DURATION))]);
    }
  }

  // ------------------------------------------------------------------------- snapshots

  datatype Call =
    | SaveCall(configOid: Oid, key: Id, message: Message)
    | ClaimCall(configOid: Oid, key: Id, attempt: Id, now: Time)
    | RenewCall(configOid: Oid, key: Id, attempt: Id, now: Time)
    | BatchCall(configOid: Oid, destination: string, batch: Id, keys: seq<Id>, attempts: map<Id, Id>, now: Time)
    | RenewBatchCall(configOid: Oid, destination: string, batch: Id, attempts: map<Id, Id>, now: Time)

  function Perform(m: Memory, l: SharedLedger, call: Call, room: Id -> nat, more: nat): Outcome
    requires Sound(m) && Live(m, l)
  {
    match call
    case SaveCall(configOid, key, message) => SaveMessage(m, l, configOid, key, message, room)
    case ClaimCall(configOid, key, attempt, now) => Claim(m, l, configOid, key, attempt, now, room, more)
    case RenewCall(configOid, key, attempt, now) => RenewClaim(m, l, configOid, key, attempt, now, room)
    case BatchCall(configOid, destination, batch, keys, attempts, now) =>
      ClaimBatch(m, l, configOid, destination, batch, keys, attempts, now, room, more).outcome
    case RenewBatchCall(configOid, destination, batch, attempts, now) => RenewBatch(m, l, configOid, destination,
          batch, attempts, now, room)
  }

  lemma PerformingKeeps(m: Memory, l: SharedLedger, call: Call, room: Id -> nat, more: nat)
    requires Sound(m) && Live(m, l)
    ensures var o := Perform(m, l, call, room, more);
            Sound(o.memory) && Kept(m, o.memory) && (o.result.Ok? ==> Live(o.memory, o.result.value))
  {
    hide Sound, Kept, Live, Value, SaveMessage, Claim, RenewClaim, ClaimBatch, RenewBatch;
    match call
    case SaveCall(configOid, key, message) => SaveMessageRefines(m, l, configOid, key, message, room);
    case ClaimCall(configOid, key, attempt, now) => ClaimRefines(m, l, configOid, key, attempt, now, room, more);
    case RenewCall(configOid, key, attempt, now) => RenewClaimRefines(m, l, configOid, key, attempt, now, room);
    case BatchCall(configOid, destination, batch, keys, attempts, now) =>
      ClaimBatchRefines(m, l, configOid, destination, batch, keys, attempts, now, room, more);
    case RenewBatchCall(configOid, destination, batch, attempts, now) =>
      RenewBatchRefines(m, l, configOid, destination, batch, attempts, now, room);
  }

  /** One transition of some ledger, with whatever spare room the allocator gives. */
  ghost predicate Performs(before: Memory, after: Memory) {
    exists l: SharedLedger, call: Call, room: Id -> nat, more: nat ::
      Sound(before) && Live(before, l) && Perform(before, l, call, room, more).memory == after
  }

  ghost predicate PerformsAt(run: seq<Memory>, t: nat)
    requires 0 < t < |run|
  {
    Performs(run[t - 1], run[t])
  }

  /**
   * However often ledgers that share arrays, messages and subscriptions are
   * stepped on, successfully or not and from whichever snapshot, a snapshot
   * taken before reads as it did.
   */
  lemma {:induction false} SnapshotsStay(run: seq<Memory>, i: nat, j: nat, l: SharedLedger)
    requires i <= j < |run| && (forall t :: 0 < t < |run| ==> PerformsAt(run, t)) && Live(run[i], l)
    ensures Live(run[j], l) && Value(run[j], l) == Value(run[i], l)
    decreases j
  {
    hide Live, Value, Kept, Performs;
    if i < j {
      assert PerformsAt(run, j);
      SnapshotsStay(run, i, j - 1, l);
      var before, after := run[j - 1], run[j];
      PerformsKeeps(before, after);
      KeptReadsTheSame(before, after, l);
    }
  }

  lemma PerformsKeeps(before: Memory, after: Memory)
    requires Performs(before, after)
    ensures Kept(before, after)
  {
    hide Perform, Kept, Live, Sound;
    var l: SharedLedger, call: Call, room: Id -> nat, more: nat :|
      Sound(before) && Live(before, l) && Perform(before, l, call, room, more).memory == after;
    PerformingKeeps(before, l, call, room, more);
  }

  /**
   * Without the clone two claims of one snapshot would write over each other: the first would read back the second's
   * attempt.
   */
  lemma UnclonedAppendsCollide(m: Memory, s: Slice, a: Id, b: Id, room: nat)
    requires s.at in m.arrays && s.used < |m.arrays[s.at]| && a != b
    ensures var (first, mine) := Append(m, s, a, room);
            var (second, theirs) := Append(first, s, b, room);
            && Attempts(first, mine) == Attempts(m, s) + [a]
            && mine.at in second.arrays && mine.used <= |second.arrays[mine.at]|
            && Attempts(second, mine) == Attempts(m, s) + [b]
  {
  }
}
