/** Ledger validation, encoded size and the capacity check. */
module Codec {
  import opened Basics
  import opened Text
  import opened Model
  import opened MapSum

  // ------------------------------------------------------------------ validation

  predicate ValidRepository(r: Repository) {
    && r.id != "" && r.host != "" && r.name != ""
    && SafeText(r.id, 256) && SafeText(r.name, 1024) && SafeText(r.host, 256)
    && (|| (r.provider == "github" && r.organizationId == "" && r.projectId == "")
        || (&& r.provider == "azuredevops" && r.organizationId != "" && r.projectId != ""
            && SafeText(r.organizationId, 256) && SafeText(r.projectId, 256)))
  }

  predicate ValidRequest(r: Request) {
    && r.id != "" && r.source != "" && r.destination != "" && r.url != ""
    && SafeText(r.id, 256) && SafeText(r.source, 1024) && SafeText(r.destination, 1024)
    && SafeText(r.logicalSource, 1024) && SafeText(r.logicalDestination, 1024) && SafeText(r.url, 4096)
  }

  predicate ValidOrigin(o: Origin) {
    && o.version == 1
    && o.operationId != "" && SafeText(o.operationId, 128)
    && o.graph != "" && SafeText(o.graph, 1024)
    && o.logicalSource != "" && SafeText(o.logicalSource, 1024)
    && o.logicalTarget != "" && SafeText(o.logicalTarget, 1024)
    && ValidOid(o.configOid) && ValidOid(o.sourceOid) && ValidOid(o.baseOid) && o.observedAt != NEVER
  }

  predicate ValidCommit(c: CommitSummary) {
    && ValidOid(c.sha) && 7 <= |c.shortSha| && c.shortSha <= c.sha
    && SafeText(c.subject, 800) && |c.subject| <= 200 && SafeText(c.url, 4096)
  }

  predicate ValidSnapshot(s: CommitSnapshot) {
    && |s.commits| <= MAX_COMMITS && s.commitCount >= 0
    && (!s.countKnown ==> s.commitCount == 0)
    && (s.countKnown ==> s.commitCount >= |s.commits|)
    && (s.unavailable ==> s.commits == [])
    && (s.sourceOid == NO_OID || ValidOid(s.sourceOid))
    && (s.baseOid == NO_OID || ValidOid(s.baseOid))
    && (s.mergeResultOid == NO_OID || ValidOid(s.mergeResultOid))
    && forall i :: 0 <= i < |s.commits| ==> ValidCommit(s.commits[i])
  }

  /** An event of this repository and graph whose identity matches its facts. */
  predicate ValidEvent(e: Event, repo: Repository, graph: string) {
    && ValidRepository(e.repository) && Same(e.repository, repo) && e.graph == graph
    && ValidRequest(e.request)
    && e.id == EventId(e.repository, e.request.id, e.kind)
    && e.occurredAt != NEVER && e.observedAt != NEVER
    && SafeText(e.sourceEnvironment, 1024) && SafeText(e.destinationEnvironment, 1024)
    && ValidSnapshot(e.snapshot)
  }

  predicate ValidName(name: string) {
    name != "" && SafeText(name, 63)
  }

  predicate ValidOverride(o: Override) {
    && o.version == 1 && ValidOid(o.priorOid) && ValidOid(o.acceptedOid)
    && o.priorOid != o.acceptedOid && o.recordedAt != NEVER
  }

  predicate ValidDestination(name: string, d: Destination) {
    && name == d.name && ValidName(name)
    && ValidDigest(d.fingerprint) && ValidDigest(d.generation) && d.activatedAt != NEVER
    && IdLength(d.lease.attemptId) <= 128
    && forall k :: k in d.subscriptions ==>
         && k == SubKey(d.subscriptions[k].event, d.subscriptions[k].requestType)
         && d.subscriptions[k].cutoff != NEVER
  }

  predicate ValidMessage(m: Message) {
    SafeText(m.title, 1024) && |m.title| <= 256 && ByteLen(m.body) <= 12 * 1024
  }

  /** The conditions on a record that mention no other part of the ledger. */
  predicate ValidRecord(r: Record) {
    && ValidDigest(r.generation)
    && r.attempts == |r.attemptIds| && IdLength(r.lease.attemptId) <= 128
    && Distinct(r.attemptIds)
    && (forall i {:trigger r.attemptIds[i]} :: 0 <= i < |r.attemptIds| ==>
          r.attemptIds[i] != NO_ID && SafeId(r.attemptIds[i], 128))
    && (r.lease.attemptId != NO_ID ==> r.lease.attemptId in r.attemptIds)
    && (r.status != Skipped ==> r.code != Retired && r.code != Abandoned)
    && (r.lastStatus != 0 ==> 100 <= r.lastStatus <= 599)
    && ValidStatus(r)
    && (r.message.Some? ==> ValidMessage(r.message.value))
  }

  predicate ValidStatus(r: Record) {
    match r.status
    case Pending => true
    case Claimed => r.lease.attemptId != NO_ID && r.lease.until != NEVER && r.message.Some?
    case Retryable => r.nextAttemptAt != NEVER && r.attempts != 0
    case Delivered =>
      && r.deliveredAt != NEVER && r.acceptedAt != NEVER && r.code == Accepted
      && r.attempts != 0 && r.message.Some?
    case Skipped =>
      || r.code == Retired
      || ((r.code == Abandoned || r.code == PayloadTooLarge) && r.attempts != 0 && r.message.Some?)
  }

  /** A record's key and references: its event and destination are in the ledger. */
  predicate RecordRefs(key: Id, r: Record, events: map<Id, Event>, destinations: map<string, Destination>) {
    && r.eventId in events && r.destination in destinations
    && key == DeliveryKey(r.eventId, r.destination, r.generation)
  }

  predicate ValidKnown(id: string, r: LifecycleRequest, repo: Repository, graph: string) {
    && id == r.request.id && ValidRequest(r.request) && ValidRepository(r.repository)
    && Same(r.repository, repo) && r.graph == graph && r.createdAt != NEVER
    && (r.state == Merged ==> r.mergedAt != NEVER)
    && (r.origin.Some? ==> ValidOrigin(r.origin.value) && r.origin.value.graph == graph)
  }

  predicate ValidScan(key: string, s: ScanProgress) {
    SafeText(key, 128) && s.version == 1 && SafeText(s.cursor, 16384) && s.from <= s.through
  }

  predicate ValidIdentity(version: int, repository: Repository, graph: string, anchorOid: Oid) {
    && version == SCHEMA_VERSION && ValidRepository(repository)
    && graph != "" && SafeText(graph, 1024) && ValidOid(anchorOid)
  }

  predicate ValidRevision(p: PolicyRevision) {
    ValidOid(p.configOid) && ValidDigest(p.policyDigest)
  }

  predicate ValidOverrides(overrides: seq<Override>) {
    forall i :: 0 <= i < |overrides| ==> ValidOverride(overrides[i])
  }

  predicate ValidDestinations(destinations: map<string, Destination>) {
    forall n {:trigger ValidDestination(n, destinations[n])} :: n in destinations ==>
      ValidDestination(n, destinations[n])
  }

  predicate ValidEventEntry(id: Id, e: Event, repository: Repository, graph: string) {
    id == e.id && ValidEvent(e, repository, graph)
  }

  predicate ValidEvents(events: map<Id, Event>, repository: Repository, graph: string) {
    forall id {:trigger ValidEventEntry(id, events[id], repository, graph)} ::
      id in events ==> ValidEventEntry(id, events[id], repository, graph)
  }

  predicate ValidDelivery(key: Id, r: Record, destinations: map<string, Destination>, events: map<Id, Event>) {
    RecordRefs(key, r, events, destinations) && ValidRecord(r)
  }

  predicate ValidDeliveries(deliveries: map<Id, Record>, destinations: map<string, Destination>, events: map<Id, Event>)
  {
    forall k {:trigger ValidDelivery(k, deliveries[k], destinations, events)} ::
      k in deliveries ==> ValidDelivery(k, deliveries[k], destinations, events)
  }

  predicate ValidRequests(known: map<string, LifecycleRequest>, repository: Repository, graph: string) {
    forall id {:trigger ValidKnown(id, known[id], repository, graph)} ::
      id in known ==> ValidKnown(id, known[id], repository, graph)
  }

  predicate ValidScans(scans: map<string, ScanProgress>) {
    forall k {:trigger ValidScan(k, scans[k])} :: k in scans ==> ValidScan(k, scans[k])
  }

  predicate ValidBody(l: Ledger) {
    && ValidOverrides(l.overrides) && ValidDestinations(l.destinations)
    && ValidEvents(l.events, l.repository, l.graph)
    && ValidDeliveries(l.deliveries, l.destinations, l.events)
    && ValidRequests(l.known, l.repository, l.graph) && ValidScans(l.scans)
  }

  /** Nothing when the ledger is well formed, else the error the decoder reports. */
  function Validate(l: Ledger): Option<Error> {
    if !ValidIdentity(l.version, l.repository, l.graph, l.anchorOid) || !ValidRevision(l.policy) then Some(InvalidState)
    else if |l.deliveries| > MAX_DELIVERIES then Some(CapacityExhausted)
    else if |l.overrides| > MAX_REVISION_OVERRIDES then Some(CapacityExhausted)
    else if !ValidBody(l) then Some(InvalidState)
    else None
  }

  // ---------------------------------------------------------------- encoded size

  function Digits(n: nat): nat {
    if n < 10 then 1 else 1 + Digits(n / 10)
  }

  function JsonInt(n: int): nat {
    if n < 0 then 1 + Digits(-n) else Digits(n)
  }

  /** Fraction digits left after trailing zeros are dropped. */
  function FractionDigits(n: nat, width: nat): (d: nat)
    ensures d <= width
  {
    if width == 0 || n % 10 != 0 then width else FractionDigits(n / 10, width - 1)
  }

  /** Length of a quoted RFC 3339 instant in UTC with a four-digit year. */
  function JsonTime(t: Time): (n: nat)
    ensures 22 <= n <= 32
    ensures JsonTime(NEVER) == 22
  {
    if t % SECOND == 0 then 22 else 23 + FractionDigits(t % SECOND, 9)
  }

  function JsonId(id: Id): nat {
    if id.Plain? then JsonLen(id.text) else 2 + IdLength(id)
  }

  /** Every element is charged a comma, and a non-empty collection has one comma fewer. */
  function Separator(count: nat): nat { if count == 0 then 0 else 1 }

  function JsonBool(b: bool): nat { if b then 4 else 5 }

  /** An optional member: nothing when empty, else its name and value. */
  function JsonOmitEmpty(s: string, name: nat): nat {
    if s == "" then 0 else name + JsonLen(s)
  }

  function JsonRepository(r: Repository): nat {
    35 + JsonLen(r.provider) + JsonLen(r.host) + JsonLen(r.id) + JsonLen(r.name)
    + JsonOmitEmpty(r.organizationId, 18) + JsonOmitEmpty(r.projectId, 13)
  }

  function JsonRequest(r: Request): nat {
    47 + JsonLen(r.id) + JsonLen(TypeText(r.kind))
    + JsonLen(r.source) + JsonLen(r.destination) + JsonLen(r.url)
    + JsonOmitEmpty(r.logicalSource, 17) + JsonOmitEmpty(r.logicalDestination, 22)
  }

  function JsonCommits(cs: seq<CommitSummary>): nat {
    if cs == [] then 0
    else 32 + JsonLen(cs[0].sha) + JsonLen(cs[0].shortSha) + JsonLen(cs[0].subject)
         + JsonOmitEmpty(cs[0].url, 7) + JsonCommits(cs[1..])
  }

  function JsonSnapshot(s: CommitSnapshot): nat {
    91 - Separator(|s.commits|) + JsonOmitEmpty(s.sourceOid, 13) + JsonOmitEmpty(s.baseOid, 11)
        + JsonOmitEmpty(s.mergeResultOid, 18)
    + JsonCommits(s.commits) + JsonInt(s.commitCount)
    + JsonBool(s.countKnown) + JsonBool(s.truncated) + JsonBool(s.unavailable)
  }

  function JsonOrigin(o: Origin): nat {
    131 + JsonInt(o.version) + JsonLen(o.operationId) + JsonLen(o.graph) + JsonLen(o.configOid)
    + JsonTime(o.observedAt) + JsonLen(o.logicalSource) + JsonLen(o.logicalTarget)
    + JsonLen(o.sourceOid) + JsonLen(o.baseOid)
  }

  function EventEntry(id: Id, e: Event): nat {
    2 + JsonId(id) + 136 + JsonId(e.id) + JsonLen(KindText(e.kind)) + JsonRepository(e.repository)
    + JsonLen(e.graph) + JsonRequest(e.request) + JsonTime(e.occurredAt) + JsonTime(e.observedAt)
    + JsonLen(e.sourceEnvironment) + JsonLen(e.destinationEnvironment) + JsonSnapshot(e.snapshot)
  }

  function KnownEntry(id: string, r: LifecycleRequest): nat {
    2 + JsonLen(id) + 69 + JsonRepository(r.repository) + JsonLen(r.graph) + JsonRequest(r.request)
    + (match r.state case Open => 6 case Merged => 8 case ClosedUnmerged => 17)
    + JsonTime(r.createdAt) + JsonTime(r.mergedAt)
    + JsonOmitEmpty(r.sourceOid, 13) + JsonOmitEmpty(r.baseOid, 11) + JsonOmitEmpty(r.mergeResultOid, 18)
    + (if r.origin.Some? then JsonOrigin(r.origin.value) else 0)
  }

  function ScanEntry(key: string, s: ScanProgress): nat {
    2 + JsonLen(key) + 53 + JsonInt(s.version) + JsonLen(s.cursor) + JsonTime(s.from) + JsonTime(s.through)
    + JsonBool(s.complete)
  }

  function SubscriptionEntry(k: SubKey, s: Subscription): nat {
    3 + JsonLen(KindText(k.event)) + JsonChars(TypeText(k.requestType))
    + 35 + JsonLen(KindText(s.event)) + JsonLen(TypeText(s.requestType)) + JsonTime(s.cutoff)
  }

  function JsonLease(l: Lease): nat {
    JsonId(l.attemptId) + JsonTime(l.until)
  }

  ghost function DestinationEntry(name: string, d: Destination): nat {
    2 + JsonLen(name) + 126 + JsonLen(d.name) + JsonId(d.fingerprint) + JsonId(d.generation)
    + JsonBool(d.active) + JsonTime(d.activatedAt)
    + 2 - Separator(|d.subscriptions|) + Sum(d.subscriptions, SubscriptionEntry)
    + JsonLease(d.lease) + JsonTime(d.nextSendAt)
  }

  function CodeLen(c: Outcome): (n: nat)
    ensures n <= 31
  {
    match c
    case NoOutcome => 0
    case Accepted => 18
    case Network => 25
    case RateLimited => 22
    case Service => 25
    case Configuration => 31
    case MissingSecret => 24
    case InvalidEndpoint => 26
    case PayloadTooLarge => 27
    case Redirect => 27
    case ResponseTooLarge => 28
    case Canceled => 18
    case Retired => 30
    case Abandoned => 19
  }

  function JsonIds(ids: seq<Id>): nat {
    if ids == [] then 0 else 1 + JsonId(ids[0]) + JsonIds(ids[1..])
  }

  function CoreSize(key: Id, eventId: Id, destination: string, generation: Id, attempts: int, attemptIds: seq<Id>,
          message: Option<Message>): nat {
    2 + JsonId(key) + 141 + JsonId(eventId) + JsonLen(destination) + JsonId(generation) + JsonInt(attempts)
    + (if attemptIds == [] then 0 else 15 + JsonIds(attemptIds))
    + (if message.Some? then 29 + JsonLen(message.value.title) + JsonLen(message.value.body) else 0)
  }

  /** The members of a record that no attempt result ever rewrites. */
  function RecordCore(key: Id, r: Record): nat {
    CoreSize(key, r.eventId, r.destination, r.generation, r.attempts, r.attemptIds, r.message)
  }

  function StatusLen(s: Status): (n: nat)
    ensures 9 <= n <= 11
  {
    match s
    case Pending => 9
    case Claimed => 9
    case Retryable => 11
    case Delivered => 11
    case Skipped => 9
  }

  function LastStatusLen(n: int): nat {
    if n == 0 then 0 else 14 + JsonInt(n)
  }

  /** The members an attempt result may rewrite. */
  function RecordMeta(r: Record): nat {
    StatusLen(r.status) + JsonTime(r.nextAttemptAt) + JsonLease(r.lease) + JsonTime(r.acceptedAt)
    + JsonTime(r.deliveredAt) + CodeLen(r.code) + LastStatusLen(r.lastStatus)
  }

  function RecordEntry(key: Id, r: Record): nat {
    RecordCore(key, r) + RecordMeta(r)
  }

  function JsonOverrides(os: seq<Override>): nat {
    if os == [] then 0
    else 54 + JsonInt(os[0].version) + JsonLen(os[0].priorOid) + JsonLen(os[0].acceptedOid)
         + JsonTime(os[0].recordedAt) + JsonOverrides(os[1..])
  }

  /** Everything but the entries of the maps. */
  function ScalarSize(l: Ledger): nat {
    172 - Separator(|l.destinations|) - Separator(|l.events|) - Separator(|l.known|) - Separator(|l.scans|)
    - Separator(|l.deliveries|) + JsonInt(l.version) + JsonRepository(l.repository) + JsonLen(l.graph)
        + JsonLen(l.anchorOid)
    + JsonLen(l.policy.configOid) + JsonId(l.policy.policyDigest)
    + (if l.overrides == [] then 0 else 22 + JsonOverrides(l.overrides))
  }

  /** Everything but the entries of the destinations and deliveries. */
  ghost function FixedSize(l: Ledger): nat {
    ScalarSize(l) + Sum(l.events, EventEntry) + Sum(l.known, KnownEntry) + Sum(l.scans, ScanEntry)
  }

  /** Bytes of the canonical encoding. */
  ghost function EncodedSize(l: Ledger): nat {
    FixedSize(l) + Sum(l.destinations, DestinationEntry) + Sum(l.deliveries, RecordEntry)
  }

  function ReserveOf(key: Id, r: Record): nat {
    if Terminal(r) then 0 else RESULT_RESERVE_BYTES
  }

  /** The capacity check; with reserve, every non-terminal record is charged for its result. */
  ghost function CheckCapacity(l: Ledger, reserve: bool): Option<Error> {
    if |l.deliveries| > MAX_DELIVERIES then Some(CapacityExhausted)
    else if EncodedSize(l) + (if reserve then Sum(l.deliveries, ReserveOf) else 0) > MAX_LEDGER_BYTES
    then Some(CapacityExhausted)
    else None
  }
}
