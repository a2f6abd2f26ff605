/**
 * The notification ledger and the facts it is built from.
 *
 * Digests are terms, one constructor for each tag the source hashes under: two
 * digests are equal only when they were taken over equal parts, and a digest
 * never equals plain text.
 */
module Model {
  import opened Basics
  import opened Text

  const SCHEMA_VERSION := 1
  const MAX_LEDGER_BYTES: nat := 8 * 1024 * 1024
  const MAX_DELIVERIES: nat := 50000
  const MAX_COMMITS: nat := 100
  const MAX_REVISION_OVERRIDES: nat := 32
  const MAX_ATTEMPTS: nat := 24
  const CLAIM_DURATION: nat := 120 * SECOND
  const RESULT_RESERVE_BYTES: nat := 2048

  // ---------------------------------------------------------------- identifiers

  /** The immutable parts of a repository identity. */
  datatype Identity = Identity(provider: string, host: string, organizationId: string, projectId: string, id: string)

  datatype Id =
    | Plain(text: string)
    | EventDigest(repository: Identity, request: string, kind: EventKind)
    | GraphDigest(repository: Identity, graph: string)
    | DeliveryDigest(event: Id, destination: string, generation: Id)
    | BatchDigest(operation: string, destination: string)
    | AttemptDigest(operation: string, key: Id)
    | FingerprintDigest(transport: string, endpointEnv: string)
    | GenerationDigest(graphKey: Id, name: string, configOid: Oid, fingerprint: Id)
    | PolicyDigest(policy: string)

  const NO_ID: Id := Plain("")

  /** Byte length: 64 hexadecimal characters, and a seven-byte prefix on event identities. */
  function IdLength(id: Id): nat {
    match id
    case Plain(text) => ByteLen(text)
    case EventDigest(_, _, _) => 71
    case _ => 64
  }

  predicate SafeId(id: Id, max: nat) {
    if id.Plain? then SafeText(id.text, max) else IdLength(id) <= max
  }

  predicate ValidDigest(id: Id) {
    if id.Plain? then |id.text| == 64 && AllHex(id.text) else !id.EventDigest?
  }

  type Oid = string

  const NO_OID: Oid := ""

  predicate ValidOid(s: Oid) {
    (|s| == 40 || |s| == 64) && AllHex(s)
  }

  // ----------------------------------------------------------------- repository

  datatype Repository = Repository(
    provider: string, host: string, id: string, organizationId: string, projectId: string, name: string)

  /** The immutable parts; the name is display-only. */
  function IdentityOf(r: Repository): Identity {
    Identity(r.provider, Lower(TrimDot(r.host)), r.organizationId, r.projectId, r.id)
  }

  predicate Same(a: Repository, b: Repository) {
    IdentityOf(a) == IdentityOf(b)
  }

  // --------------------------------------------------------------------- events

  datatype EventKind = RequestCreated | RequestMerged
  datatype RequestType = Promotion | Backflow

  function KindText(k: EventKind): string {
    match k case RequestCreated => "request-created" case RequestMerged => "request-merged"
  }

  function TypeText(t: RequestType): string {
    match t case Promotion => "promotion" case Backflow => "backflow"
  }

  datatype Request = Request(
    id: string, kind: RequestType, source: string, destination: string,
    logicalSource: string, logicalDestination: string, url: string)

  datatype LifecycleState = Open | Merged | ClosedUnmerged

  datatype Origin = Origin(
    version: int, operationId: string, graph: string, configOid: Oid, observedAt: Time,
    logicalSource: string, logicalTarget: string, sourceOid: Oid, baseOid: Oid)

  datatype LifecycleRequest = LifecycleRequest(
    repository: Repository, graph: string, request: Request, state: LifecycleState,
    createdAt: Time, mergedAt: Time, sourceOid: Oid, baseOid: Oid, mergeResultOid: Oid,
    origin: Option<Origin>)

  datatype CommitSummary = CommitSummary(sha: Oid, shortSha: string, subject: string, url: string)

  datatype CommitSnapshot = CommitSnapshot(
    sourceOid: Oid, baseOid: Oid, mergeResultOid: Oid, commits: seq<CommitSummary>,
    commitCount: int, countKnown: bool, truncated: bool, unavailable: bool)

  datatype Event = Event(
    id: Id, kind: EventKind, repository: Repository, graph: string, request: Request,
    occurredAt: Time, observedAt: Time, sourceEnvironment: string, destinationEnvironment: string,
    snapshot: CommitSnapshot)

  function EventId(repo: Repository, request: string, kind: EventKind): Id {
    EventDigest(IdentityOf(repo), request, kind)
  }

  function GraphKey(repo: Repository, graph: string): Id {
    GraphDigest(IdentityOf(repo), graph)
  }

  function DeliveryKey(event: Id, destination: string, generation: Id): Id {
    DeliveryDigest(event, destination, generation)
  }

  function Fingerprint(transport: string, endpointEnv: string): Id {
    FingerprintDigest(transport, endpointEnv)
  }

  function Generation(graphKey: Id, name: string, configOid: Oid, fingerprint: Id): Id {
    GenerationDigest(graphKey, name, configOid, fingerprint)
  }

  // --------------------------------------------------------------------- policy

  datatype PolicyRevision = PolicyRevision(configOid: Oid, policyDigest: Id)

  datatype Override = Override(version: int, priorOid: Oid, acceptedOid: Oid, recordedAt: Time)

  datatype DestinationConfig = DestinationConfig(
    name: string, transport: string, endpointEnv: string, enabled: Option<bool>,
    events: Option<seq<EventKind>>, requestTypes: Option<seq<RequestType>>)
  {
    predicate IsEnabled() {
      && (enabled.Some? ==> enabled.value)
      && (events.Some? ==> events.value != [])
      && (requestTypes.Some? ==> requestTypes.value != [])
    }
  }

  type Policy = Option<seq<DestinationConfig>>

  /** Some destination is enabled; an absent policy is off. */
  predicate PolicyEnabled(p: Policy) {
    p.Some? && exists i :: 0 <= i < |p.value| && p.value[i].IsEnabled()
  }

  // ------------------------------------------------------------------ deliveries

  datatype Message = Message(title: string, body: string)

  datatype Lease = Lease(attemptId: Id, until: Time)

  const NO_LEASE: Lease := Lease(NO_ID, NEVER)

  datatype SubKey = SubKey(event: EventKind, requestType: RequestType)

  datatype Subscription = Subscription(event: EventKind, requestType: RequestType, cutoff: Time)

  datatype Destination = Destination(
    name: string, fingerprint: Id, generation: Id, active: bool, activatedAt: Time,
    subscriptions: map<SubKey, Subscription>, lease: Lease, nextSendAt: Time)

  /** What indexing a map without the key yields. */
  const NO_DESTINATION: Destination := Destination("", NO_ID, NO_ID, false, NEVER, map[], NO_LEASE, NEVER)

  datatype Status = Pending | Claimed | Retryable | Delivered | Skipped

  datatype Outcome =
    | NoOutcome
    | Accepted | Network | RateLimited | Service | Configuration | MissingSecret | InvalidEndpoint
    | PayloadTooLarge | Redirect | ResponseTooLarge | Canceled | Retired | Abandoned

  datatype AttemptResult = AttemptResult(code: Outcome, retryAfter: int, status: int)

  datatype Record = Record(
    eventId: Id, destination: string, generation: Id, status: Status, attempts: int,
    nextAttemptAt: Time, lease: Lease, attemptIds: seq<Id>, acceptedAt: Time, deliveredAt: Time,
    code: Outcome, lastStatus: int, message: Option<Message>)

  predicate Terminal(r: Record) {
    r.status == Delivered || r.status == Skipped
  }

  datatype ScanProgress = ScanProgress(version: int, cursor: string, from: Time, through: Time, complete: bool)

  // --------------------------------------------------------------------- ledger

  datatype Ledger = Ledger(
    version: int, repository: Repository, graph: string, anchorOid: Oid, policy: PolicyRevision,
    destinations: map<string, Destination>, events: map<Id, Event>,
    known: map<string, LifecycleRequest>, scans: map<string, ScanProgress>,
    deliveries: map<Id, Record>, overrides: seq<Override>)

  function NewLedger(repo: Repository, graph: string, anchor: Oid): Ledger {
    Ledger(SCHEMA_VERSION, repo, graph, anchor, PolicyRevision(NO_OID, NO_ID), map[], map[], map[], map[], map[], [])
  }

  /** Map lookup with the zero value for a missing key. */
  function DestinationOf(l: Ledger, name: string): Destination {
    if name in l.destinations then l.destinations[name] else NO_DESTINATION
  }

  /** Whether d is subscribed to the event a record names; a missing event has no kind. */
  predicate Subscribed(l: Ledger, d: Destination, eventId: Id) {
    eventId in l.events && EventKey(l.events[eventId]) in d.subscriptions
  }

  function EventKey(e: Event): SubKey {
    SubKey(e.kind, e.request.kind)
  }
}
