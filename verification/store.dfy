/** The ledger store: transitions guarded, encoded and appended by compare-and-swap. */
module Store {
  import opened Basics
  import opened Text
  import opened Model
  import opened Codec
  import opened Reducer
  import opened Guard
  import opened Notes
  import MutableLedger

  // ----------------------------------------------------------- what a ref may hold

  function DataOf(tip: Tip<Ledger>): Option<Ledger> {
    if tip.None? then None else Some(tip.value.data)
  }

  /** A commit the store's checks let through onto its parent. */
  ghost predicate Admitted(c: Commit<Ledger>, repository: Repository, graph: string, relation: Relation) {
    CommitError(DataOf(c.parent), c.data, repository, graph, relation) == None && c.anchor == c.data.anchorOid
  }

  /** The relations the verifier reported from the first note to this one. */
  ghost predicate Lawful(tip: Tip<Ledger>, repository: Repository, graph: string, relations: seq<Relation>)
    decreases tip
  {
    if tip.None? then relations == []
    else
      && |relations| > 0 && Admitted(tip.value, repository, graph, relations[|relations| - 1])
      && Lawful(tip.value.parent, repository, graph, relations[..|relations| - 1])
  }

  /** The ledgers of a ref, oldest first. */
  function Ledgers(tip: Tip<Ledger>): seq<Ledger> {
    if tip.None? then [] else Ledgers(tip.value.parent) + [tip.value.data]
  }

  /**
   * Whatever runs interleaved, a ref of admitted commits is a history, with all that follows for evidence and lineage.
   */
  lemma {:induction false} LawfulIsHistory(tip: Tip<Ledger>, repository: Repository, graph: string,
          relations: seq<Relation>)
    requires tip.Some? && Lawful(tip, repository, graph, relations)
    ensures History(Ledgers(tip), relations[1..])
    ensures Same(tip.value.data.repository, repository) && tip.value.data.graph == graph
    decreases tip
  {
    hide Admitted, Hop, History;
    var n := |relations| - 1;
    var c := tip.value;
    if c.parent.None? {
      FirstIsValid(c, repository, graph, relations[n]);
      assert Ledgers(tip) == [c.data] && relations[1..] == [];
    } else {
      LawfulIsHistory(c.parent, repository, graph, relations[..n]);
      AdmittedIsHop(c, repository, graph, relations[n]);
      LastLedger(c.parent);
      HistoryGrows(Ledgers(c.parent), relations[..n][1..], c.data, relations[n]);
      assert relations[1..] == relations[..n][1..] + [relations[n]];
    }
  }

  lemma FirstIsValid(c: Commit<Ledger>, repository: Repository, graph: string, relation: Relation)
    requires Admitted(c, repository, graph, relation) && c.parent.None?
    ensures History([c.data], []) && Same(c.data.repository, repository) && c.data.graph == graph
  {
    hide EncodedSize, Validate;
  }

  lemma AdmittedIsHop(c: Commit<Ledger>, repository: Repository, graph: string, relation: Relation)
    requires Admitted(c, repository, graph, relation) && c.parent.Some?
    requires Same(c.parent.value.data.repository, repository) && c.parent.value.data.graph == graph
    ensures Hop(c.parent.value.data, c.data, relation) && Same(c.data.repository, repository) && c.data.graph == graph
  {
    hide EncodeError, ValidateAppend, CheckRevision;
  }

  lemma LastLedger(tip: Tip<Ledger>)
    requires tip.Some?
    ensures |Ledgers(tip)| >= 1 && Ledgers(tip)[|Ledgers(tip)| - 1] == tip.value.data
  {
  }

  lemma HistoryGrows(h: seq<Ledger>, relations: seq<Relation>, next: Ledger, relation: Relation)
    requires History(h, relations) && Hop(h[|h| - 1], next, relation)
    ensures History(h + [next], relations + [relation])
  {
    hide Hop, Validate;
    var more, all := h + [next], relations + [relation];
    forall i | 0 <= i < |all| ensures Hop(more[i], more[i + 1], all[i]) {
      if i < |relations| { assert Hop(h[i], h[i + 1], relations[i]) && all[i] == relations[i]; }
    }
  }

  // --------------------------------------------------------------------- the commit

  datatype Verdict = Related(relation: Relation) | Unverified | CommitGone

  /** One round of the commit loop: what happens around it and what its callbacks answer. */
  datatype Attempt = Attempt(
    canceled: bool, look: Look<Ledger>, transition: Option<Ledger> -> Result<Option<Ledger>>,
    verdict: Option<Verdict>, stamp: nat, weather: Weather<Ledger>)

  /** What the verifier's verdict, if there is a verifier, tells the guard. */
  function Reported(verdict: Option<Verdict>): Relation {
    if verdict.Some? && verdict.value.Related? then verdict.value.relation else NoRelation
  }

  function Mapped(e: NotesError): Error {
    match e
    case Absent => AbsentLedger
    case Conflict => WriteConflict
    case Invalid => InvalidState
    case Unreachable => Unavailable
  }

  const ROUNDS := 5

  /** The committed ledger is the transition's answer to its immediate predecessor. */
  ghost predicate Applied(a: Attempt, c: Commit<Ledger>, repository: Repository, graph: string) {
    && a.transition(DataOf(c.parent)) == Ok(Some(c.data))
    && Admitted(c, repository, graph, Reported(a.verdict))
  }

  /** One more applied commit keeps a ref lawful, so the ledgers of a ref written by stores form a history. */
  lemma AppliedStaysLawful(a: Attempt, c: Commit<Ledger>, repository: Repository, graph: string,
          relations: seq<Relation>)
    requires Lawful(c.parent, repository, graph, relations) && Applied(a, c, repository, graph)
    ensures History(Ledgers(Some(c)), (relations + [Reported(a.verdict)])[1..])
  {
    hide Admitted, History;
    assert (relations + [Reported(a.verdict)])[..|relations|] == relations;
    LawfulIsHistory(Some(c), repository, graph, relations + [Reported(a.verdict)]);
  }

  /** Nothing to write: the transition's answer to the current ledger is that ledger. */
  ghost predicate Unchanged(a: Attempt, c: Commit<Ledger>) {
    a.transition(Some(c.data)) == Ok(Some(c.data))
  }

  // ------------------------------------------------------- what a round leaves behind

  function NoteOn(tip: Tip<Ledger>, entry: Entry<Ledger>): Commit<Ledger> {
    Notes.Commit.Commit(tip, entry.anchor, entry.data, entry.stamp)
  }

  /** The note an attempt makes on a tip, if its transition answers the tip's ledger with another. */
  function NoteOf(a: Attempt, tip: Tip<Ledger>): Option<Commit<Ledger>> {
    match a.transition(DataOf(tip))
    case Ok(Some(next)) => Some(NoteOn(tip, Entry(next.anchorOid, next, a.stamp)))
    case _ => None
  }

  /** How far a round got with the ref. */
  datatype Path = NotRead | OnlyRead | Looked | NotLanded | Landed | LandedUnheard

  /** The ref after the read, and when the push arrives. */
  function AtRead(a: Attempt, start: Tip<Ledger>): Tip<Ledger> {
    After(start, a.look)
  }

  function Arrived(a: Attempt, start: Tip<Ledger>): Tip<Ledger> {
    AtPush(AtRead(a, start), a.weather)
  }

  /**
   * The ref after a round that got so far: what the writers around it appended by then, in their order, and behind that
   * the round's own note if it landed.
   */
  function EndOf(a: Attempt, start: Tip<Ledger>, path: Path): Tip<Ledger> {
    match path
    case NotRead => start
    case OnlyRead => AtRead(a, start)
    case Looked => After(AtRead(a, start), a.weather.first)
    case NotLanded => After(Arrived(a, start), a.weather.again)
    case Landed => NoteOf(a, Arrived(a, start))
    case LandedUnheard => After(NoteOf(a, Arrived(a, start)), a.weather.again)
  }

  /**
   * The round got so far and left the ref so; what landed of its own is its transition's answer, and passed the checks.
   */
  ghost predicate Leaves(a: Attempt, start: Tip<Ledger>, path: Path, end: Tip<Ledger>, repository: Repository,
          graph: string) {
    && end == EndOf(a, start, path) && (path.NotRead? <==> a.canceled)
    && (path.Landed? ==> a.weather.answer == Heard)
    && (path.LandedUnheard? ==> a.weather.answer == Unheard)
    && (path.Landed? || path.LandedUnheard? ==>
          var note := NoteOf(a, Arrived(a, start));
          note.Some? && Applied(a, note.value, repository, graph))
  }

  /** Other writers' notes that passed the checks too, each on the tip it landed on. */
  ghost predicate EntriesAdmitted(tip: Tip<Ledger>, entries: seq<Entry<Ledger>>, repository: Repository, graph: string)
    decreases |entries|
  {
    entries == []
    || ((exists relation :: Admitted(NoteOn(tip, entries[0]), repository, graph, relation))
        && EntriesAdmitted(Some(NoteOn(tip, entries[0])), entries[1..], repository, graph))
  }

  ghost predicate LookAdmitted(tip: Tip<Ledger>, look: Look<Ledger>, repository: Repository, graph: string) {
    && EntriesAdmitted(tip, look.before, repository, graph)
    && EntriesAdmitted(Listed(tip, look), look.between, repository, graph)
  }

  /** The other writers' notes of a round that got so far are admitted where they land. */
  ghost predicate OthersAdmitted(a: Attempt, start: Tip<Ledger>, path: Path, repository: Repository, graph: string) {
    var read, w := AtRead(a, start), a.weather;
    && (!path.NotRead? ==> LookAdmitted(start, a.look, repository, graph))
    && (!path.NotRead? && !path.OnlyRead? ==> LookAdmitted(read, w.first, repository, graph))
    && (path.NotLanded? || path.Landed? || path.LandedUnheard? ==>
          EntriesAdmitted(After(read, w.first), w.others, repository, graph))
    && (path.NotLanded? ==> LookAdmitted(Arrived(a, start), w.again, repository, graph))
    && (path.LandedUnheard? ==> LookAdmitted(NoteOf(a, Arrived(a, start)), w.again, repository, graph))
  }

  ghost predicate IsLawful(tip: Tip<Ledger>, repository: Repository, graph: string) {
    exists relations :: Lawful(tip, repository, graph, relations)
  }

  lemma AdmittedStaysLawful(c: Commit<Ledger>, repository: Repository, graph: string, relation: Relation)
    requires IsLawful(c.parent, repository, graph) && Admitted(c, repository, graph, relation)
    ensures IsLawful(Some(c), repository, graph)
  {
    hide Admitted;
    var relations :| Lawful(c.parent, repository, graph, relations);
    var more := relations + [relation];
    assert more[..|relations|] == relations;
    assert Lawful(Some(c), repository, graph, more);
  }

  lemma {:induction false} EntriesStayLawful(tip: Tip<Ledger>, entries: seq<Entry<Ledger>>, repository: Repository,
          graph: string)
    requires IsLawful(tip, repository, graph) && EntriesAdmitted(tip, entries, repository, graph)
    ensures IsLawful(Grow(tip, entries), repository, graph)
    decreases |entries|
  {
    hide Admitted, IsLawful;
    if entries != [] {
      var note := NoteOn(tip, entries[0]);
      var relation :| Admitted(note, repository, graph, relation);
      AdmittedStaysLawful(note, repository, graph, relation);
      EntriesStayLawful(Some(note), entries[1..], repository, graph);
    }
  }

  lemma LookStaysLawful(tip: Tip<Ledger>, look: Look<Ledger>, repository: Repository, graph: string)
    requires IsLawful(tip, repository, graph) && LookAdmitted(tip, look, repository, graph)
    ensures IsLawful(After(tip, look), repository, graph)
  {
    hide EntriesAdmitted, IsLawful;
    EntriesStayLawful(tip, look.before, repository, graph);
    EntriesStayLawful(Listed(tip, look), look.between, repository, graph);
  }

  /** However far a round got, heard or not, it leaves a lawful ref lawful if the other writers' notes are admitted. */
  lemma RoundStaysLawful(a: Attempt, start: Tip<Ledger>, path: Path, end: Tip<Ledger>, repository: Repository,
          graph: string)
    requires IsLawful(start, repository, graph) && Leaves(a, start, path, end, repository, graph)
    requires OthersAdmitted(a, start, path, repository, graph)
    ensures IsLawful(end, repository, graph)
  {
    hide Admitted, EntriesAdmitted, LookAdmitted, IsLawful, After;
    var read, w := AtRead(a, start), a.weather;
    if path.NotRead? { return; }
    LookStaysLawful(start, a.look, repository, graph);
    if path.OnlyRead? { return; }
    LookStaysLawful(read, w.first, repository, graph);
    if path.Looked? { return; }
    EntriesStayLawful(After(read, w.first), w.others, repository, graph);
    if path.NotLanded? {
      LookStaysLawful(Arrived(a, start), w.again, repository, graph);
    } else {
      var note := NoteOf(a, Arrived(a, start));
      AdmittedStaysLawful(note.value, repository, graph, Reported(a.verdict));
      if path.LandedUnheard? { LookStaysLawful(note, w.again, repository, graph); }
    }
  }

  /** Round for round, from one tip to the next. */
  ghost predicate Rounds(attempts: seq<Attempt>, tips: seq<Tip<Ledger>>, paths: seq<Path>, repository: Repository,
          graph: string) {
    && |tips| == |paths| + 1 && |paths| <= |attempts|
    && forall i {:trigger paths[i]} :: 0 <= i < |paths| ==>
         Leaves(attempts[i], tips[i], paths[i], tips[i + 1], repository, graph)
  }

  lemma OneMoreRound(attempts: seq<Attempt>, tips: seq<Tip<Ledger>>, paths: seq<Path>, path: Path, end: Tip<Ledger>,
          repository: Repository, graph: string)
    requires Rounds(attempts, tips, paths, repository, graph) && |paths| < |attempts|
    requires Leaves(attempts[|paths|], tips[|paths|], path, end, repository, graph)
    ensures Rounds(attempts, tips + [end], paths + [path], repository, graph)
  {
    hide Leaves;
    var more, all := tips + [end], paths + [path];
    forall i {:trigger all[i]} | 0 <= i < |all|
      ensures Leaves(attempts[i], more[i], all[i], more[i + 1], repository, graph)
    {
      if i < |paths| { assert all[i] == paths[i]; }
    }
  }

  /** The other writers' notes of every round are admitted where they land. */
  ghost predicate AllAdmitted(attempts: seq<Attempt>, tips: seq<Tip<Ledger>>, paths: seq<Path>, repository: Repository,
          graph: string)
    requires |tips| == |paths| + 1 && |paths| <= |attempts|
  {
    forall i {:trigger paths[i]} :: 0 <= i < |paths| ==>
      OthersAdmitted(attempts[i], tips[i], paths[i], repository, graph)
  }

  /**
   * A lawful ref stays lawful over any commit, and is a history, if the other writers' notes are admitted where they
   * land.
   */
  lemma {:induction false} CommitsStayLawful(attempts: seq<Attempt>, tips: seq<Tip<Ledger>>, paths: seq<Path>,
          repository: Repository, graph: string)
    requires Rounds(attempts, tips, paths, repository, graph) && IsLawful(tips[0], repository, graph)
    requires AllAdmitted(attempts, tips, paths, repository, graph)
    ensures var end := tips[|paths|];
            && IsLawful(end, repository, graph)
            && (end.Some? ==> exists relations :: History(Ledgers(end), relations))
    decreases |paths|
  {
    hide IsLawful, Leaves, OthersAdmitted, History;
    var n := |paths|;
    if n > 0 {
      forall i {:trigger paths[..n - 1][i]} | 0 <= i < n - 1
        ensures Leaves(attempts[i], tips[..n][i], paths[..n - 1][i], tips[..n][i + 1], repository, graph)
                && OthersAdmitted(attempts[i], tips[..n][i], paths[..n - 1][i], repository, graph)
      {
        assert paths[..n - 1][i] == paths[i];
      }
      CommitsStayLawful(attempts, tips[..n], paths[..n - 1], repository, graph);
      var last := n - 1;
      assert Leaves(attempts[last], tips[last], paths[last], tips[last + 1], repository, graph);
      RoundStaysLawful(attempts[last], tips[last], paths[last], tips[n], repository, graph);
    }
    LawfulHasHistory(tips[n], repository, graph);
  }

  lemma LawfulSoFar(attempts: seq<Attempt>, tips: seq<Tip<Ledger>>, paths: seq<Path>, repository: Repository,
          graph: string)
    requires Rounds(attempts, tips, paths, repository, graph)
    ensures IsLawful(tips[0], repository, graph) && AllAdmitted(attempts, tips, paths, repository, graph) ==>
              IsLawful(tips[|paths|], repository, graph)
  {
    hide AllAdmitted, IsLawful, Leaves;
    if IsLawful(tips[0], repository, graph) && AllAdmitted(attempts, tips, paths, repository, graph) {
      CommitsStayLawful(attempts, tips, paths, repository, graph);
    }
  }

  lemma LawfulHasHistory(tip: Tip<Ledger>, repository: Repository, graph: string)
    requires IsLawful(tip, repository, graph)
    ensures tip.Some? ==> exists relations :: History(Ledgers(tip), relations)
  {
    hide Admitted, History;
    var relations :| Lawful(tip, repository, graph, relations);
    if tip.Some? {
      LawfulIsHistory(tip, repository, graph, relations);
      assert History(Ledgers(tip), relations[1..]);
    }
  }

  datatype Current = Current(ledger: Option<Ledger>, tip: Tip<Ledger>)

  /** The outcome of a successful round: its note on the tip its push arrived at, or nothing to append. */
  ghost predicate Committed(a: Attempt, out: Current, before: Tip<Ledger>, after: Tip<Ledger>, repository: Repository,
          graph: string) {
    && out.tip.Some? && out.ledger == DataOf(out.tip)
    && ((Applied(a, out.tip.value, repository, graph) && after == out.tip && out.tip.value.parent == Arrived(a, before))
        || (Unchanged(a, out.tip.value) && Descends(after, out.tip) && after == AtRead(a, before)))
  }

  /** Nobody else writes during the round, the ref can be read, and the push is answered. */
  predicate Undisturbed(a: Attempt) {
    && a.look.before == [] && a.look.between == [] && Calm(a.weather) && a.weather.answer != Unheard
    && Clear(a.weather.first) && Clear(a.weather.again)
  }

  /** The whole verdict on what a transition answered. */
  ghost function StoreError(current: Option<Ledger>, next: Ledger, repository: Repository, graph: string,
          verdict: Option<Verdict>): Option<Error> {
    if current.Some? && Same(next.repository, repository) && next.graph == graph
       && current.value.policy.configOid != next.policy.configOid && verdict.Some? && !verdict.value.Related?
    then Some(if verdict.value.CommitGone? then RevisionUnreachable else UnorderedRevision)
    else CommitError(current, next, repository, graph, Reported(verdict))
  }

  lemma PassedFacts(current: Option<Ledger>, next: Ledger, repository: Repository, graph: string,
          verdict: Option<Verdict>)
    requires StoreError(current, next, repository, graph, verdict) == None
    ensures CommitError(current, next, repository, graph, Reported(verdict)) == None
    ensures current.Some? ==> current.value.anchorOid == next.anchorOid
  {
    hide EncodeError, CheckRevision, EventsKept, DeliveriesKept, AuditMatches;
  }

  // ------------------------------------------------------------ what a round answers

  /** What reading this tip answers. */
  ghost function ReadOf(tip: Tip<Ledger>, repository: Repository, graph: string): Result<Current> {
    if tip.None? then Ok(Current(None, None))
    else
      var c := tip.value;
      var invalid := Validate(c.data);
      if EncodedSize(c.data) > MAX_LEDGER_BYTES then Err(CapacityExhausted)
      else if invalid.Some? then Err(invalid.value)
      else if !Same(c.data.repository, repository) || c.data.graph != graph || c.data.anchorOid != c.anchor then
        Err(InvalidState)
      else Ok(Current(Some(c.data), tip))
  }

  lemma AdmittedIsReadable(c: Commit<Ledger>, repository: Repository, graph: string, relation: Relation)
    requires Admitted(c, repository, graph, relation)
    ensures Same(c.data.repository, repository) && c.data.graph == graph && c.anchor == c.data.anchorOid
    ensures DataOf(c.parent) == Some(c.data) || (Validate(c.data) == None && EncodedSize(c.data) <= MAX_LEDGER_BYTES)
  {
    hide EncodedSize, Validate, CheckRevision, ValidateAppend;
  }

  /** What stores write they can read back: every tip of a lawful ref is read as it was written. */
  lemma {:induction false} LawfulIsReadable(tip: Tip<Ledger>, repository: Repository, graph: string)
    requires IsLawful(tip, repository, graph)
    ensures ReadOf(tip, repository, graph) == Ok(Current(DataOf(tip), tip))
    decreases tip
  {
    hide Admitted, EncodedSize, Validate;
    if tip.Some? {
      var relations :| Lawful(tip, repository, graph, relations);
      AdmittedIsReadable(tip.value, repository, graph, relations[|relations| - 1]);
      var fewer := relations[..|relations| - 1];
      assert Lawful(tip.value.parent, repository, graph, fewer);
      LawfulIsReadable(tip.value.parent, repository, graph);
    }
  }

  /** What is to be written behind this tip, or why nothing is. */
  ghost function ProposalOf(a: Attempt, tip: Tip<Ledger>, repository: Repository, graph: string): Result<Ledger> {
    var read := ReadOf(tip, repository, graph);
    if read.Err? then Err(read.error)
    else
      match a.transition(DataOf(tip))
      case Err(e) => Err(e)
      case Ok(None) => Err(InvalidState)
      case Ok(Some(next)) =>
        var refusal := StoreError(DataOf(tip), next, repository, graph, a.verdict);
        if refusal.Some? then Err(refusal.value) else Ok(next)
  }

  function AnswerOf(written: Written<Ledger>, next: Ledger): Option<Result<Current>> {
    match written
    case Wrote(note) => Some(Ok(Current(Some(next), Some(note))))
    case Failed(Conflict) => None
    case Failed(Absent) => Some(Err(AbsentLedger))
    case Failed(Invalid) => Some(Err(InvalidState))
    case Failed(Unreachable) => Some(Err(Unavailable))
  }

  /** What a round answers that saw this tip, with a ref that can be read: nothing when the race was lost. */
  ghost function Concluded(a: Attempt, start: Tip<Ledger>, seen: Tip<Ledger>, repository: Repository,
          graph: string): Option<Result<Current>> {
    var next := ProposalOf(a, seen, repository, graph);
    if next.Err? then Some(Err(next.error))
    else if DataOf(seen) == Some(next.value) then Some(Ok(Current(DataOf(seen), seen)))
    else
      var note := NoteOn(seen, Entry(next.value.anchorOid, next.value, a.stamp));
      AnswerOf(Rereading(AtRead(a, start), seen, note, a.weather), next.value)
  }

  /** The tips a read may see: as advertised, or as fetched. */
  predicate Seen(tip: Tip<Ledger>, look: Look<Ledger>, seen: Tip<Ledger>) {
    seen == Listed(tip, look) || seen == After(tip, look)
  }

  predicate Readable(a: Attempt) {
    Clear(a.look) && Clear(a.weather.first) && Clear(a.weather.again)
  }

  /** The answer follows from a tip the round saw, unless the run is canceled or a look fails. */
  ghost predicate Concludes(a: Attempt, start: Tip<Ledger>, r: Option<Result<Current>>, repository: Repository,
          graph: string) {
    if a.canceled then r == Some(Err(Unavailable))
    else
      || r == Concluded(a, start, Listed(start, a.look), repository, graph)
      || r == Concluded(a, start, After(start, a.look), repository, graph)
      || (r == Some(Err(Unavailable)) && !Readable(a))
  }

  /** Nothing interferes: no other writer, every look succeeds, and the push is heard. */
  predicate Alone(a: Attempt) {
    && !a.canceled && a.look == Look([], true, [], true) && a.weather.first == Look([], true, [], true)
    && a.weather.others == [] && a.weather.answer == Heard && a.weather.again == Look([], true, [], true)
  }

  /**
   * Left alone on a lawful ref, a round commits what the checks let through: its transition's answer becomes the next
   * note, or was there already.
   */
  lemma AloneCommits(a: Attempt, start: Tip<Ledger>, next: Ledger, r: Option<Result<Current>>, repository: Repository,
          graph: string)
    requires IsLawful(start, repository, graph) && Alone(a)
    requires a.transition(DataOf(start)) == Ok(Some(next)) && ValidOid(next.anchorOid)
    requires start.None? ==> a.weather.anchor == IsCommit
    requires StoreError(DataOf(start), next, repository, graph, a.verdict) == None
    requires Concludes(a, start, r, repository, graph)
    ensures var note := Notes.Commit.Commit(start, next.anchorOid, next, a.stamp);
            r == Some(Ok(if DataOf(start) == Some(next) then Current(Some(next), start)
                         else Current(Some(next), Some(note))))
  {
    hide StoreError, ReadOf, IsLawful;
    LawfulIsReadable(start, repository, graph);
    PassedFacts(DataOf(start), next, repository, graph, a.verdict);
    assert Listed(start, a.look) == start && After(start, a.look) == start;
    assert ProposalOf(a, start, repository, graph) == Ok(next);
    if DataOf(start) != Some(next) {
      if start.Some? { LawfulAnchor(start, repository, graph); }
      LoneWriterNeverConflicts(start, NoteOn(start, Entry(next.anchorOid, next, a.stamp)), a.weather);
    }
  }

  lemma LawfulAnchor(tip: Tip<Ledger>, repository: Repository, graph: string)
    requires tip.Some? && IsLawful(tip, repository, graph)
    ensures tip.value.anchor == tip.value.data.anchorOid
  {
    hide CommitError;
  }

  /** A round that was lost, and why. */
  ghost predicate Lost(a: Attempt, start: Tip<Ledger>, path: Path, repository: Repository, graph: string) {
    && !Undisturbed(a) && path != Landed
    && Concludes(a, start, None, repository, graph)
  }

  /** How far a write got, by what it left. */
  ghost function PathOf(a: Attempt, start: Tip<Ledger>, seen: Tip<Ledger>, written: Written<Ledger>,
          end: Tip<Ledger>): Path {
    if written.Wrote? then Landed
    else if end == AtRead(a, start) then OnlyRead
    else if end == After(AtRead(a, start), a.weather.first) then Looked
    else if Lands(AtRead(a, start), seen, a.weather) then LandedUnheard
    else NotLanded
  }

  /** The write's outcome follows from what it saw, as the notes promise it. */
  ghost predicate Writes(a: Attempt, read: Tip<Ledger>, seen: Tip<Ledger>, note: Commit<Ledger>,
          written: Written<Ledger>, end: Tip<Ledger>) {
    var w := a.weather;
    && (|| written == Rereading(read, seen, note, w)
        || (written == Failed(Unreachable) && !(Clear(w.first) && Clear(w.again))))
    && (written.Wrote? ==> written.tip == note && Lands(read, seen, w) && w.answer == Heard && end == Some(note))
    && (written.Failed? ==>
          || end == read
          || end == After(read, w.first)
          || (!(Lands(read, seen, w) && w.answer == Heard) && end == After(Pushed(read, seen, note, w), w.again)))
  }

  lemma WriteLeaves(a: Attempt, start: Tip<Ledger>, seen: Tip<Ledger>, note: Commit<Ledger>, written: Written<Ledger>,
          end: Tip<Ledger>, repository: Repository, graph: string)
    requires Writes(a, AtRead(a, start), seen, note, written, end) && !a.canceled
    requires note.parent == seen && NoteOf(a, seen) == Some(note) && Applied(a, note, repository, graph)
    ensures Leaves(a, start, PathOf(a, start, seen, written, end), end, repository, graph)
    ensures written.Wrote? ==>
              && PathOf(a, start, seen, written, end) == Landed
              && Committed(a, Current(Some(note.data), Some(note)), start, end, repository, graph)
    ensures written.Failed? ==> PathOf(a, start, seen, written, end) != Landed
  {
    hide Applied, NoteOf, Rereading, After;
  }

  lemma WriteConcludes(a: Attempt, start: Tip<Ledger>, seen: Tip<Ledger>, next: Ledger, written: Written<Ledger>,
          end: Tip<Ledger>, repository: Repository, graph: string)
    requires Writes(a, AtRead(a, start), seen, NoteOn(seen, Entry(next.anchorOid, next, a.stamp)), written, end)
    requires Seen(start, a.look, seen) && ProposalOf(a, seen, repository, graph) == Ok(next)
    requires DataOf(seen) != Some(next) && !a.canceled
    ensures Concludes(a, start, AnswerOf(written, next), repository, graph)
  {
    hide ProposalOf, Rereading, Lands, Pushed;
  }

  lemma ProposalIsApplied(a: Attempt, seen: Tip<Ledger>, next: Ledger, repository: Repository, graph: string)
    requires ProposalOf(a, seen, repository, graph) == Ok(next)
    ensures var note := NoteOn(seen, Entry(next.anchorOid, next, a.stamp));
            NoteOf(a, seen) == Some(note) && Applied(a, note, repository, graph)
  {
    hide StoreError, CommitError, ReadOf;
    PassedFacts(DataOf(seen), next, repository, graph, a.verdict);
  }

  class LedgerStore {
    const notes: NotificationNotes<Ledger>
    const repository: Repository
    const graph: string

    constructor (notes: NotificationNotes<Ledger>, repository: Repository, graph: string)
      ensures this.notes == notes && this.repository == repository && this.graph == graph
    {
      this.notes, this.repository, this.graph := notes, repository, graph;
    }

    /** The current ledger, decoded and checked to be this graph's; absence is not an error here. */
    method Read(look: Look<Ledger>) returns (r: Result<Current>, ghost seen: Tip<Ledger>)
      requires notes.Valid()
      modifies notes, notes.remote
      ensures notes.Valid() && notes.remote.tip == After(old(notes.remote.tip), look)
      ensures Seen(old(notes.remote.tip), look, seen) && Descends(notes.remote.tip, seen)
      ensures r == ReadOf(seen, repository, graph) || (r == Err(Unavailable) && !Clear(look))
    {
      hide EncodedSize, Validate, Same;
      ghost var start := notes.remote.tip;
      GrowDescends(start, look.before);
      GrowDescends(Listed(start, look), look.between);
      seen := After(start, look);
      var note, error := notes.Read(look);
      if note.Err? {
        if error != Absent { return Err(Mapped(error)), seen; }
        seen := Listed(start, look);
        return Ok(Current(None, None)), seen;
      }
      seen := Some(note.value.tip);
      var l := note.value.data;
      var used := MutableLedger.EncodedLength(l);
      if used > MAX_LEDGER_BYTES { return Err(CapacityExhausted), seen; }
      var invalid := Validate(l);
      if invalid.Some? { return Err(invalid.value), seen; }
      if !Same(l.repository, repository) || l.graph != graph || l.anchorOid != note.value.anchor {
        return Err(InvalidState), seen;
      }
      r := Ok(Current(Some(l), Some(note.value.tip)));
    }

    /** Why the store refuses what a transition answered; the guard, then the encoder. */
    method Refusal(current: Option<Ledger>, next: Ledger, verdict: Option<Verdict>) returns (refusal: Option<Error>)
      ensures refusal == StoreError(current, next, repository, graph, verdict)
    {
      hide EncodedSize, Validate, CheckRevision, ValidateAppend;
      if !Same(next.repository, repository) || next.graph != graph { return Some(InvalidState); }
      if current.None? {
        if next.overrides != [] { return Some(InvalidState); }
      } else {
        var accepted, incoming := current.value.policy, next.policy;
        var changed := accepted.configOid != incoming.configOid;
        if changed && verdict.Some? && !verdict.value.Related? {
          return Some(if verdict.value.CommitGone? then RevisionUnreachable else UnorderedRevision);
        }
        var relation := if changed then Reported(verdict) else NoRelation;
        var evidence := Evidence(accepted.configOid, incoming.configOid, relation);
        refusal := CheckRevision(accepted, incoming, evidence);
        if refusal.Some? { return; }
        refusal := ValidateAppend(current.value, next, evidence);
        if refusal.Some? || current.value == next { return; }
      }
      refusal := Validate(next);
      if refusal.Some? { return; }
      var used := MutableLedger.EncodedLength(next);
      refusal := if used > MAX_LEDGER_BYTES then Some(CapacityExhausted) else None;
    }

    /** The next ledger of a round, not yet written: the transition's answer to what was just read. */
    method Propose(a: Attempt) returns (current: Current, next: Result<Ledger>, ghost seen: Tip<Ledger>)
      requires notes.Valid()
      modifies notes, notes.remote
      ensures notes.Valid()
      ensures notes.remote.tip == if a.canceled then old(notes.remote.tip) else AtRead(a, old(notes.remote.tip))
      ensures Seen(old(notes.remote.tip), a.look, seen)
      ensures if a.canceled then next == Err(Unavailable)
              else || next == ProposalOf(a, seen, repository, graph)
                   || (next == Err(Unavailable) && !Clear(a.look))
      ensures next.Ok? ==> current == Current(DataOf(seen), seen) && Descends(notes.remote.tip, seen)
      ensures next.Ok? && seen.Some? ==> seen.value.anchor == next.value.anchorOid
    {
      hide StoreError, EncodedSize, Validate, Same, CommitError;
      current, next, seen := Current(None, None), Err(Unavailable), Listed(notes.remote.tip, a.look);
      if a.canceled { return; }
      var read;
      read, seen := Read(a.look);
      if read.Err? { return current, Err(read.error), seen; }
      current := read.value;
      var answer := a.transition(current.ledger);
      if answer.Err? { return current, Err(answer.error), seen; }
      if answer.value.None? { return current, Err(InvalidState), seen; }
      var refusal := Refusal(current.ledger, answer.value.value, a.verdict);
      if refusal.Some? { return current, Err(refusal.value), seen; }
      PassedFacts(current.ledger, answer.value.value, repository, graph, a.verdict);
      next := Ok(answer.value.value);
    }

    /**
     * One round: read, reduce what was read, check, append. Nothing is returned when the race was lost. Whatever the
     * outcome, the ref holds what the writers around the round appended, in their order, and at most one note of the
     * round: its transition's answer, passed by the checks, to the tip its push arrived at.
     */
    method Round(a: Attempt) returns (r: Option<Result<Current>>, ghost path: Path)
      requires notes.Valid()
      modifies notes, notes.remote
      ensures notes.Valid()
      ensures Concludes(a, old(notes.remote.tip), r, repository, graph)
      ensures Leaves(a, old(notes.remote.tip), path, notes.remote.tip, repository, graph)
      ensures r.Some? && r.value.Ok? ==>
                Committed(a, r.value.value, old(notes.remote.tip), notes.remote.tip, repository, graph)
      ensures r.None? || r.value.Err? ==> path != Landed
      ensures r.None? ==> !Undisturbed(a)
    {
      hide StoreError, CommitError, Rereading, Descends, ReadOf, Applied, Lands, Pushed;
      ghost var start := notes.remote.tip;
      path := if a.canceled then NotRead else OnlyRead;
      var current, next, seen := Propose(a);
      assert Leaves(a, start, path, notes.remote.tip, repository, graph);
      if next.Err? { return Some(Err(next.error)), path; }
      if current.ledger == Some(next.value) { return Some(Ok(current)), path; }
      assert Undisturbed(a) ==> seen == notes.remote.tip;
      hide Leaves, Concludes, Concluded, ProposalOf, Committed, PathOf, After;
      ghost var note := NoteOn(seen, Entry(next.value.anchorOid, next.value, a.stamp));
      ProposalIsApplied(a, seen, next.value, repository, graph);
      if Undisturbed(a) { LoneWriterNeverConflicts(seen, note, a.weather); }
      var written := notes.Write(current.tip, next.value.anchorOid, next.value, a.stamp, a.weather);
      assert Writes(a, AtRead(a, start), seen, note, written, notes.remote.tip);
      WriteLeaves(a, start, seen, note, written, notes.remote.tip, repository, graph);
      WriteConcludes(a, start, seen, next.value, written, notes.remote.tip, repository, graph);
      path := PathOf(a, start, seen, written, notes.remote.tip);
      if written.Wrote? { return Some(Ok(Current(Some(next.value), Some(written.tip)))), path; }
      if written.error == Conflict { return None, path; }
      r := Some(Err(Mapped(written.error)));
    }

    /**
     * At most five rounds. The result is that of the first round that was not lost;
     * a round is lost only to another writer, or to an unheard push of its own.
     * Each round leaves the ref, from one tip to the next, as a round does.
     */
    method Commit(attempts: seq<Attempt>)
      returns (r: Result<Current>, lost: nat, ghost tips: seq<Tip<Ledger>>, ghost paths: seq<Path>)
      requires notes.Valid() && |attempts| == 5
      modifies notes, notes.remote
      ensures notes.Valid()
      ensures lost <= 5 && |paths| == if lost < 5 then lost + 1 else 5
      ensures Rounds(attempts, tips, paths, repository, graph)
      ensures tips[0] == old(notes.remote.tip) && tips[|paths|] == notes.remote.tip
      ensures forall i {:trigger paths[i]} :: 0 <= i < lost ==>
                Lost(attempts[i], tips[i], paths[i], repository, graph)
      ensures lost < 5 ==> Concludes(attempts[lost], tips[lost], Some(r), repository, graph)
      ensures lost == 5 ==> r == Err(WriteConflict)
      ensures r.Ok? ==>
                lost < 5 && Committed(attempts[lost], r.value, tips[lost], notes.remote.tip, repository, graph)
      ensures IsLawful(old(notes.remote.tip), repository, graph)
              && AllAdmitted(attempts, tips, paths, repository, graph) ==>
                IsLawful(notes.remote.tip, repository, graph)
      ensures r.Err? && lost < 5 ==> paths[lost] != Landed
    {
      hide Committed, Undisturbed, Concludes, Leaves, IsLawful, OthersAdmitted;
      lost, tips, paths := 0, [notes.remote.tip], [];
      for i := 0 to ROUNDS
        invariant notes.Valid() && lost == i == |paths| && Rounds(attempts, tips, paths, repository, graph)
        invariant tips[0] == old(notes.remote.tip) && tips[i] == notes.remote.tip
        invariant forall j {:trigger paths[j]} :: 0 <= j < i ==>
                    Lost(attempts[j], tips[j], paths[j], repository, graph)
      {
        var round, path := Round(attempts[i]);
        OneMoreRound(attempts, tips, paths, path, notes.remote.tip, repository, graph);
        tips, paths := tips + [notes.remote.tip], paths + [path];
        if round.Some? {
          LawfulSoFar(attempts, tips, paths, repository, graph);
          return round.value, lost, tips, paths;
        }
        assert Lost(attempts[i], tips[i], path, repository, graph);
        lost := i + 1;
      }
      LawfulSoFar(attempts, tips, paths, repository, graph);
      r := Err(WriteConflict);
    }
  }
}
