/**
 * Discovery by frozen intervals: an interval too full to list is split in two,
 * one that fits is listed twice and read out, and the cursor keeps the rest.
 */
module IntervalScan {
  import opened Basics
  import opened Text
  import opened Model
  import opened Sorting

  const MILLISECOND: nat := 1_000_000
  const MAX_PENDING := 64
  /** The Unix epoch, the start of a scan without one. */
  const EPOCH: Time := 62_135_596_800 * SECOND

  /** A closed range of instants. */
  datatype Interval = Interval(from: Time, through: Time) {
    predicate Holds(t: Time) {
      from <= t <= through
    }
  }

  datatype Cursor = Cursor(version: int, kind: EventKind, pending: seq<Interval>)

  datatype CursorText = NoCursor | Malformed | Decoded(cursor: Cursor)

  datatype Query = Query(graph: string, kind: EventKind, from: Time, through: Time, limit: int, cursor: CursorText) {
    function Start(): Time {
      if from == NEVER then EPOCH else from
    }

    function Top(): int {
      if limit == 0 then 100 else limit
    }

    /** The frozen interval, as one. */
    function Whole(): seq<Interval> {
      [Interval(Start(), through)]
    }

    /** What is left to verify. */
    function Pending(): seq<Interval> {
      if cursor.Decoded? then cursor.cursor.pending else Whole()
    }

    predicate Acceptable() {
      && graph != "" && through != NEVER && 0 <= limit <= 100 && !cursor.Malformed?
      && (cursor.Decoded? ==>
            cursor.cursor.version == 1 && cursor.cursor.kind == kind && 1 <= |cursor.cursor.pending| <= MAX_PENDING)
      && Start() <= Pending()[0].from <= Pending()[0].through <= through
    }
  }

  datatype Page = Page(failed: bool, requests: seq<LifecycleRequest>, complete: bool, cursor: Option<Cursor>)

  /** What the next page has to verify; a page that is not complete and has no cursor sends it back to the start. */
  function Remaining(q: Query, p: Page): seq<Interval> {
    if p.cursor.Some? then p.cursor.value.pending else if p.complete then [] else q.Whole()
  }

  // ------------------------------------------------------------------------ remote

  /** A pull request as the server times it; only a completed one has a closing time. */
  datatype Pull = Pull(created: Time, closed: Option<Time>, managed: Option<LifecycleRequest>)

  /** A remote that does not change during the scan. */
  type Remote = map<int, Pull>

  /** The instant the server ranges over for a kind of event. */
  function Timed(p: Pull, kind: EventKind): Option<Time> {
    if kind == RequestMerged then p.closed else Some(p.created)
  }

  function When(r: LifecycleRequest, kind: EventKind): Time {
    if kind == RequestMerged then r.mergedAt else r.createdAt
  }

  /** Managed requests carry the server's own times. */
  ghost predicate Faithful(remote: Remote) {
    forall id :: id in remote ==>
      && id > 0
      && (remote[id].managed.Some? ==>
            forall kind :: Timed(remote[id], kind).Some? ==>
              When(remote[id].managed.value, kind) == Timed(remote[id], kind).value)
  }

  predicate Listed(remote: Remote, kind: EventKind, i: Interval, id: int) {
    id in remote && Timed(remote[id], kind).Some? && i.Holds(Timed(remote[id], kind).value)
  }

  datatype Answer = Answer(error: bool, ids: seq<int>)

  /** The server lists each pull request of the interval once, and leaves none out below its page limit. */
  ghost predicate Answers(remote: Remote, kind: EventKind, i: Interval, top: int, a: Answer) {
    !a.error ==>
      && Distinct(a.ids) && |a.ids| <= top && (forall id :: id in a.ids ==> Listed(remote, kind, i, id))
      && (|a.ids| < top ==> forall id :: Listed(remote, kind, i, id) ==> id in a.ids)
  }

  datatype Lookup = NotManaged | Found(request: LifecycleRequest) | LookupFails

  ghost predicate LooksUp(remote: Remote, lookup: int -> Lookup) {
    forall id :: id in remote && !lookup(id).LookupFails? ==>
      lookup(id) == if remote[id].managed.Some? then Found(remote[id].managed.value) else NotManaged
  }

  /** A managed request of the graph whose event of this kind falls in the interval. */
  predicate Wanted(remote: Remote, q: Query, i: Interval, id: int) {
    Listed(remote, q.kind, i, id) && remote[id].managed.Some? && remote[id].managed.value.graph == q.graph
  }

  /** The pull requests that are wanted and carry this request. */
  function Carriers(remote: Remote, q: Query, i: Interval, r: LifecycleRequest): set<int> {
    set id | id in remote && Wanted(remote, q, i, id) && remote[id].managed.value == r
  }

  /** Exactly the wanted requests, each as often as it is there. */
  ghost predicate ReadsOut(remote: Remote, q: Query, i: Interval, requests: seq<LifecycleRequest>) {
    && (forall id :: Wanted(remote, q, i, id) ==> remote[id].managed.value in requests)
    && (forall r :: r in requests ==> exists id :: Wanted(remote, q, i, id) && remote[id].managed.value == r)
    && (forall r :: multiset(requests)[r] == |Carriers(remote, q, i, r)|)
  }

  // -------------------------------------------------------------------------- steps

  /** An interval and the two halves it is split into share their boundary only. */
  predicate SplitsFirst(before: seq<Interval>, after: seq<Interval>) {
    && before != [] && |after| == |before| + 1 && after[2..] == before[1..]
    && after[0].from == before[0].from && after[0].through == after[1].from && after[1].through == before[0].through
    && before[0].from < after[0].through < before[0].through
  }

  predicate RemovesFirst(before: seq<Interval>, after: seq<Interval>) {
    before != [] && after == before[1..]
  }

  function Weigh(i: Interval): nat {
    if i.through <= i.from then 1 else 2 * (i.through - i.from) - 1
  }

  /** The potential that bounds how many pages a scan can take. */
  function Weight(pending: seq<Interval>): nat {
    if pending == [] then 0 else Weigh(pending[0]) + Weight(pending[1..])
  }

  lemma PagesLoseWeight(before: seq<Interval>, after: seq<Interval>)
    requires SplitsFirst(before, after) || RemovesFirst(before, after)
    ensures Weight(after) < Weight(before)
  {
    if SplitsFirst(before, after) {
      assert after[1..][1..] == after[2..];
      assert after[1..][0] == after[1];
    }
  }

  // --------------------------------------------------------------------------- page

  function Truncated(t: Time): Time {
    t - t % MILLISECOND
  }

  function ById(): (LifecycleRequest, LifecycleRequest) -> bool {
    (a: LifecycleRequest, b: LifecycleRequest) => Less(a.request.id, b.request.id)
  }

  lemma ByIdIsWeak()
    ensures StrictWeakOrder(ById())
  {
    NamesAreOrdered();
    TotalIsWeak(Less);
  }

  /** The looked-up request belongs to the graph, and its event of the kind to the interval. */
  predicate Belongs(q: Query, i: Interval, lookup: int -> Lookup, id: int, r: LifecycleRequest) {
    lookup(id) == Found(r) && r.graph == q.graph && i.from <= When(r, q.kind) <= i.through
  }

  /** What a listing has for the query, in its order. */
  function Selected(q: Query, i: Interval, ids: seq<int>, lookup: int -> Lookup): seq<LifecycleRequest> {
    if ids == [] then []
    else
      var id := ids[|ids| - 1];
      Selected(q, i, ids[..|ids| - 1], lookup)
      + if lookup(id).Found? && Belongs(q, i, lookup, id, lookup(id).request) then [lookup(id).request] else []
  }

  /** Every listed pull request has a proper number of its own and can be looked up. */
  predicate Usable(ids: seq<int>, lookup: int -> Lookup) {
    Distinct(ids) && forall k :: k in ids ==> k > 0 && !lookup(k).LookupFails?
  }

  /** Reads out a verified listing; a repeated or improper number or a failed lookup spoils it. */
  method ReadOut(q: Query, i: Interval, ids: seq<int>, lookup: int -> Lookup) returns (ok: bool,
          requests: seq<LifecycleRequest>)
    ensures ok <==> Usable(ids, lookup)
    ensures ok ==> requests == Selected(q, i, ids, lookup)
  {
    requests := [];
    var seen: set<int> := {};
    for n := 0 to |ids|
      invariant forall k :: k in seen <==> k in ids[..n]
      invariant Usable(ids[..n], lookup)
      invariant requests == Selected(q, i, ids[..n], lookup)
    {
      var id := ids[n];
      assert ids[..n + 1][..n] == ids[..n] && ids[..n + 1] == ids[..n] + [id];
      if id <= 0 || id in seen {
        if id in seen {
          var k :| 0 <= k < n && ids[..n][k] == id;
          assert ids[k] == ids[n];
        }
        return false, requests;
      }
      seen := seen + {id};
      match lookup(id)
      case NotManaged =>
      case LookupFails => return false, requests;
      case Found(r) =>
        if r.graph == q.graph && i.Holds(When(r, q.kind)) { requests := requests + [r]; }
    }
    assert ids[..|ids|] == ids;
    ok := true;
  }

  lemma {:induction false} SelectedBelongs(q: Query, i: Interval, ids: seq<int>, lookup: int -> Lookup,
          r: LifecycleRequest)
    ensures r in Selected(q, i, ids, lookup) <==> exists k :: k in ids && Belongs(q, i, lookup, k, r)
  {
    if ids != [] {
      var n := |ids| - 1;
      SelectedBelongs(q, i, ids[..n], lookup, r);
      LastIsSelected(q, i, ids, lookup, r);
      hide Belongs, Selected;
      assert forall k :: k in ids <==> k in ids[..n] || k == ids[n];
    }
  }

  lemma LastIsSelected(q: Query, i: Interval, ids: seq<int>, lookup: int -> Lookup, r: LifecycleRequest)
    requires ids != []
    ensures r in Selected(q, i, ids, lookup)
            <==> r in Selected(q, i, ids[..|ids| - 1], lookup) || Belongs(q, i, lookup, ids[|ids| - 1], r)
  {
  }

  lemma LastIsNew(ids: seq<int>)
    requires Distinct(ids) && ids != []
    ensures Distinct(ids[..|ids| - 1]) && ids[|ids| - 1] !in ids[..|ids| - 1]
    ensures ids == ids[..|ids| - 1] + [ids[|ids| - 1]]
  {
  }

  /** The listed numbers under which this request belongs. */
  function Bearers(q: Query, i: Interval, ids: seq<int>, lookup: int -> Lookup, r: LifecycleRequest): set<int> {
    set k | k in ids && Belongs(q, i, lookup, k, r)
  }

  lemma BearersGrow(q: Query, i: Interval, ids: seq<int>, id: int, lookup: int -> Lookup, r: LifecycleRequest)
    requires id !in ids
    ensures |Bearers(q, i, ids + [id], lookup, r)|
            == |Bearers(q, i, ids, lookup, r)| + if Belongs(q, i, lookup, id, r) then 1 else 0
  {
    hide Belongs;
    assert Bearers(q, i, ids + [id], lookup, r)
           == Bearers(q, i, ids, lookup, r) + if Belongs(q, i, lookup, id, r) then {id} else {};
  }

  lemma {:induction false} SelectedCounts(q: Query, i: Interval, ids: seq<int>, lookup: int -> Lookup,
          r: LifecycleRequest)
    requires Distinct(ids)
    ensures multiset(Selected(q, i, ids, lookup))[r] == |Bearers(q, i, ids, lookup, r)|
  {
    if ids == [] {
      assert Bearers(q, i, ids, lookup, r) == {};
    } else {
      var n := |ids| - 1;
      LastIsNew(ids);
      hide Distinct, Belongs, Bearers, Selected;
      SelectedCounts(q, i, ids[..n], lookup, r);
      LastSelected(q, i, ids, lookup, r);
      BearersGrow(q, i, ids[..n], ids[n], lookup, r);
    }
  }

  lemma LastSelected(q: Query, i: Interval, ids: seq<int>, lookup: int -> Lookup, r: LifecycleRequest)
    requires ids != []
    ensures multiset(Selected(q, i, ids, lookup))[r]
            == multiset(Selected(q, i, ids[..|ids| - 1], lookup))[r]
               + if Belongs(q, i, lookup, ids[|ids| - 1], r) then 1 else 0
  {
  }

  /** What a page does to the pending intervals: nothing, a start over, a split, or a verified first interval. */
  ghost predicate Handles(q: Query, page: Page) {
    if page.failed then
      !page.complete && Remaining(q, page) == if q.Acceptable() then q.Pending() else q.Whole()
    else
      && q.Acceptable() && (page.complete <==> Remaining(q, page) == [])
      && ((SplitsFirst(q.Pending(), Remaining(q, page)) && page.requests == [])
          || RemovesFirst(q.Pending(), Remaining(q, page)))
      && (page.cursor.Some? ==> page.cursor.value.version == 1 && page.cursor.value.kind == q.kind)
  }

  /** What a page returns for a verified interval: what the graph has there, in order. */
  ghost predicate Returns(q: Query, first: Answer, second: Answer, lookup: int -> Lookup, page: Page) {
    !page.failed && RemovesFirst(q.Pending(), Remaining(q, page)) ==>
      && Sorted(page.requests, ById())
      && forall remote ::
           Faithful(remote) && LooksUp(remote, lookup) && Answers(remote, q.kind, q.Pending()[0], q.Top(), first)
           && Answers(remote, q.kind, q.Pending()[0], q.Top(), second) ==>
             ReadsOut(remote, q, q.Pending()[0], page.requests)
  }

  /** An interval can be split if there is a whole millisecond strictly inside, at its middle, and room for one more. */
  predicate CanSplit(pending: seq<Interval>)
    requires pending != []
  {
    var i := pending[0];
    var middle := i.from + (i.through - i.from) / 2;
    && i.through - i.from > 1_000_000 && |pending| < 64
    && i.from < middle - middle % 1_000_000 < i.through
  }

  /**
   * A page gets on exactly if the query is acceptable and the listing is either full and the interval can be split, or
   * it fits, is listed the same twice, and every pull request of it can be read.
   */
  predicate GetsOn(q: Query, first: Answer, second: Answer, lookup: int -> Lookup) {
    && q.Acceptable() && !first.error
    && var top := if q.limit == 0 then 100 else q.limit;
       if |first.ids| == top then CanSplit(q.Pending())
       else
         && |first.ids| < top && !second.error && multiset(first.ids) == multiset(second.ids)
         && Usable(second.ids, lookup)
  }

  /**
   * One page. It verifies and reads out the first pending interval, or splits it if
   * its listing is full, or fails and leaves what is pending as it was; a query or
   * cursor it cannot use makes the scan start over.
   */
  method ListLifecyclePage(q: Query, first: Answer, second: Answer, lookup: int -> Lookup) returns (page: Page)
    ensures Handles(q, page) && Returns(q, first, second, lookup, page)
    ensures !page.failed <==> GetsOn(q, first, second, lookup)
    ensures !page.failed ==> (SplitsFirst(q.Pending(), Remaining(q, page)) <==> |first.ids| == q.Top())
    ensures page.failed ==> page.cursor == if q.Acceptable() then Some(Cursor(1, q.kind, q.Pending())) else None
  {
    page := Page(true, [], false, None);
    if q.graph == "" || q.through == NEVER || q.limit < 0 || q.limit > 100 { return; }
    var top := if q.limit == 0 then 100 else q.limit;
    var from := if q.from == NEVER then EPOCH else q.from;
    var pending := [Interval(from, q.through)];
    if q.cursor.Malformed? { return; }
    if q.cursor.Decoded? {
      var c := q.cursor.cursor;
      if c.version != 1 || c.kind != q.kind || |c.pending| == 0 || |c.pending| > 64 { return; }
      pending := c.pending;
    }
    var interval := pending[0];
    if interval.from < from || interval.through > q.through || interval.through < interval.from { return; }
    assert q.Acceptable() && pending == q.Pending();
    var kept := Some(Cursor(1, q.kind, pending));
    if first.error || |first.ids| > top { return page.(cursor := kept); }
    if |first.ids| == top {
      if interval.through - interval.from <= MILLISECOND || |pending| >= MAX_PENDING { return page.(cursor := kept); }
      var mid := Truncated(interval.from + (interval.through - interval.from) / 2);
      if mid <= interval.from || interval.through <= mid { return page.(cursor := kept); }
      var halves := [Interval(interval.from, mid), Interval(mid, interval.through)] + pending[1..];
      SplitAndRemovedDiffer(pending, halves);
      return Page(false, [], false, Some(Cursor(1, q.kind, halves)));
    }
    if second.error || multiset(first.ids) != multiset(second.ids) { return page.(cursor := kept); }
    var ok, requests := ReadOut(q, interval, second.ids, lookup);
    if !ok { return page.(cursor := kept, requests := requests); }
    ByIdIsWeak();
    var ordered := Sort(requests, ById());
    var rest := pending[1..];
    forall remote | Faithful(remote) && LooksUp(remote, lookup)
                    && Answers(remote, q.kind, interval, top, first) && Answers(remote, q.kind, interval, top, second)
      ensures ReadsOut(remote, q, interval, ordered)
    {
      VerifiedListingIsComplete(remote, q, interval, first, second, lookup, ordered);
    }
    page := Page(false, ordered, rest == [], if rest == [] then None else Some(Cursor(1, q.kind, rest)));
  }

  lemma SplitAndRemovedDiffer(before: seq<Interval>, after: seq<Interval>)
    requires before != [] && |after| == |before| + 1
    ensures !RemovesFirst(before, after)
  {
  }

  /** Two equal listings below the page limit leave out nothing and repeat nothing. */
  lemma VerifiedListingIsComplete(remote: Remote, q: Query, i: Interval, first: Answer, second: Answer,
          lookup: int -> Lookup, requests: seq<LifecycleRequest>)
    requires Faithful(remote) && LooksUp(remote, lookup) && !first.error && !second.error
    requires Answers(remote, q.kind, i, q.Top(), first) && Answers(remote, q.kind, i, q.Top(), second)
    requires |first.ids| < q.Top() && multiset(first.ids) == multiset(second.ids) && Usable(second.ids, lookup)
    requires multiset(requests) == multiset(Selected(q, i, second.ids, lookup))
    ensures ReadsOut(remote, q, i, requests)
  {
    assert |first.ids| == |multiset(first.ids)| == |multiset(second.ids)| == |second.ids|;
    forall r, id
      ensures id in second.ids && Belongs(q, i, lookup, id, r)
              <==> Wanted(remote, q, i, id) && remote[id].managed.value == r
    {
      ListedBelongs(remote, q, i, second.ids, lookup, id, r);
    }
    hide Wanted, Belongs, Usable, LooksUp, Answers, Faithful, Selected;
    PermutationFacts(Selected(q, i, second.ids, lookup), requests);
    forall r
      ensures r in requests <==> exists k :: k in second.ids && Belongs(q, i, lookup, k, r)
      ensures multiset(requests)[r] == |Carriers(remote, q, i, r)|
    {
      SelectedBelongs(q, i, second.ids, lookup, r);
      SelectedCounts(q, i, second.ids, lookup, r);
      WantedIsThere(remote, q, i);
      assert Carriers(remote, q, i, r) == Bearers(q, i, second.ids, lookup, r);
    }
  }

  lemma WantedIsThere(remote: Remote, q: Query, i: Interval)
    ensures forall id :: Wanted(remote, q, i, id) ==> id in remote
  {
  }

  lemma ListedBelongs(remote: Remote, q: Query, i: Interval, ids: seq<int>, lookup: int -> Lookup, id: int,
          r: LifecycleRequest)
    requires Faithful(remote) && LooksUp(remote, lookup) && Usable(ids, lookup)
    requires forall k :: Listed(remote, q.kind, i, k) <==> k in ids
    ensures id in ids && Belongs(q, i, lookup, id, r) <==> Wanted(remote, q, i, id) && remote[id].managed.value == r
  {
  }

  // ---------------------------------------------------------------------- whole scans

  /** What one page of a scan did to the pending intervals, and what it read out. */
  datatype Outcome = Failed | Restarted | Split | Verified(interval: Interval, requests: seq<LifecycleRequest>)

  ghost predicate ScanStep(remote: Remote, q: Query, before: seq<Interval>, after: seq<Interval>, e: Outcome) {
    match e
    case Failed => after == before
    case Restarted => after == q.Whole()
    case Split => SplitsFirst(before, after)
    case Verified(interval, requests) =>
      RemovesFirst(before, after) && interval == before[0] && ReadsOut(remote, q, interval, requests)
  }

  ghost predicate Scan(remote: Remote, q: Query, pending: seq<seq<Interval>>, events: seq<Outcome>) {
    && |pending| == |events| + 1
    && forall i {:trigger events[i]} :: 0 <= i < |events| ==> ScanStep(remote, q, pending[i], pending[i + 1], events[i])
  }

  predicate Covered(pending: seq<Interval>, t: Time) {
    exists i :: 0 <= i < |pending| && pending[i].Holds(t)
  }

  predicate Done(events: seq<Outcome>, t: Time) {
    exists i :: 0 <= i < |events| && events[i].Verified? && events[i].interval.Holds(t)
  }

  function Progressed(events: seq<Outcome>): nat {
    if events == [] then 0
    else Progressed(events[..|events| - 1])
         + if events[|events| - 1].Failed? || events[|events| - 1].Restarted? then 0 else 1
  }

  function Restarts(events: seq<Outcome>): nat {
    if events == [] then 0 else Restarts(events[..|events| - 1]) + if events[|events| - 1].Restarted? then 1 else 0
  }

  /** An instant of the scan's own interval; any instant at all, if the scan never starts over. */
  predicate InScope(q: Query, events: seq<Outcome>, t: Time) {
    q.Whole()[0].Holds(t) || forall i :: 0 <= i < |events| ==> !events[i].Restarted?
  }

  lemma StepKeepsCover(remote: Remote, q: Query, before: seq<Interval>, after: seq<Interval>, e: Outcome, t: Time)
    requires ScanStep(remote, q, before, after, e) && Covered(before, t) && (e.Restarted? ==> q.Whole()[0].Holds(t))
    ensures Covered(after, t) || (e.Verified? && e.interval.Holds(t))
  {
    var i :| 0 <= i < |before| && before[i].Holds(t);
    if e.Restarted? {
      assert after[0].Holds(t);
    } else if e.Split? {
      if i == 0 {
        assert after[0].Holds(t) || after[1].Holds(t);
      } else {
        assert after[i + 1] == after[2..][i - 1] == before[1..][i - 1];
        assert after[i + 1].Holds(t);
      }
    } else if e.Verified? && i > 0 {
      assert after[i - 1] == before[i];
    }
  }

  /** No gap ever: at every point of a scan each instant is still pending or was verified. */
  lemma {:induction false} NoGap(remote: Remote, q: Query, pending: seq<seq<Interval>>, events: seq<Outcome>, t: Time)
    requires Scan(remote, q, pending, events) && Covered(pending[0], t) && InScope(q, events, t)
    ensures Covered(pending[|events|], t) || Done(events, t)
  {
    if events != [] {
      var last := |events| - 1;
      NoGap(remote, q, pending[..|events|], events[..last], t);
      assert pending[..|events|][last] == pending[last];
      assert ScanStep(remote, q, pending[last], pending[last + 1], events[last]);
      if Done(events[..last], t) {
        var i :| 0 <= i < last && events[..last][i].Verified? && events[..last][i].interval.Holds(t);
        assert events[i].Verified? && events[i].interval.Holds(t);
      } else {
        StepKeepsCover(remote, q, pending[last], pending[last + 1], events[last], t);
      }
    }
  }

  /** Between two starts a scan makes at most as many pages of progress as what it starts with weighs. */
  lemma {:induction false} ScansAreBounded(remote: Remote, q: Query, pending: seq<seq<Interval>>, events: seq<Outcome>)
    requires Scan(remote, q, pending, events)
    ensures Progressed(events) + Weight(pending[|events|]) <= Weight(pending[0]) + Restarts(events) * Weight(q.Whole())
  {
    hide Weight, SplitsFirst, RemovesFirst, ReadsOut;
    if events != [] {
      var last := |events| - 1;
      ScansAreBounded(remote, q, pending[..|events|], events[..last]);
      assert pending[..|events|][last] == pending[last];
      assert ScanStep(remote, q, pending[last], pending[last + 1], events[last]);
      var w, n := Weight(q.Whole()), Restarts(events[..last]);
      assert (n + 1) * w == n * w + w;
      if events[last].Split? || events[last].Verified? { PagesLoseWeight(pending[last], pending[last + 1]); }
    }
  }

  /** A scan that ends complete has returned every managed request of the graph in the whole interval. */
  lemma CompleteScanMissesNothing(remote: Remote, q: Query, pending: seq<seq<Interval>>, events: seq<Outcome>, id: int)
    requires Scan(remote, q, pending, events) && pending[0] == q.Whole() && pending[|events|] == []
    requires Wanted(remote, q, Interval(q.Start(), q.through), id)
    ensures exists i :: 0 <= i < |events| && events[i].Verified? && remote[id].managed.value in events[i].requests
  {
    var t := Timed(remote[id], q.kind).value;
    assert pending[0][0].Holds(t);
    NoGap(remote, q, pending, events, t);
    var i :| 0 <= i < |events| && events[i].Verified? && events[i].interval.Holds(t);
    assert ScanStep(remote, q, pending[i], pending[i + 1], events[i]);
    assert Wanted(remote, q, events[i].interval, id);
  }

  // ------------------------------------------------------------------ scans of pages

  /** One call for a page, with what the server answered. */
  datatype Call = Call(first: Answer, second: Answer, lookup: int -> Lookup, page: Page)

  /** The query for the page after this one. */
  function Carried(q: Query, page: Page): Query {
    q.(cursor := if page.cursor.Some? then Decoded(page.cursor.value) else NoCursor)
  }

  /** The query after some calls. */
  function QueryAfter(q: Query, calls: seq<Call>): Query {
    if calls == [] then q else Carried(QueryAfter(q, calls[..|calls| - 1]), calls[|calls| - 1].page)
  }

  /** The call was answered by this remote, and gave what a page gives. */
  ghost predicate Answered(remote: Remote, q: Query, c: Call) {
    && Handles(q, c.page) && Returns(q, c.first, c.second, c.lookup, c.page)
    && LooksUp(remote, c.lookup)
    && (q.Acceptable() ==> Answers(remote, q.kind, q.Pending()[0], q.Top(), c.first)
                           && Answers(remote, q.kind, q.Pending()[0], q.Top(), c.second))
  }

  /** Pages called for one after another until one is complete, each with the cursor of the one before. */
  ghost predicate Pages(remote: Remote, q: Query, calls: seq<Call>) {
    forall i {:trigger calls[i]} :: 0 <= i < |calls| ==>
      Answered(remote, QueryAfter(q, calls[..i]), calls[i]) && (calls[i].page.complete ==> i == |calls| - 1)
  }

  ghost function OutcomeOf(q: Query, page: Page): Outcome {
    if page.failed then (if q.Acceptable() then Failed else Restarted)
    else if RemovesFirst(q.Pending(), Remaining(q, page)) then Verified(q.Pending()[0], page.requests)
    else Split
  }

  /** A page is a step of the scan from what its query had pending to what it leaves. */
  lemma PageIsScanStep(remote: Remote, q: Query, c: Call)
    requires Faithful(remote) && Answered(remote, q, c)
    ensures ScanStep(remote, q, q.Pending(), Remaining(q, c.page), OutcomeOf(q, c.page))
  {
    hide Faithful, LooksUp, Answers, ReadsOut, Sorted;
  }

  /** The outcomes of the calls, and what is pending before and after each. */
  ghost function Outcomes(q: Query, calls: seq<Call>): seq<Outcome> {
    seq(|calls|, i requires 0 <= i < |calls| => OutcomeOf(QueryAfter(q, calls[..i]), calls[i].page))
  }

  ghost function Left(q: Query, calls: seq<Call>): seq<seq<Interval>> {
    seq(|calls| + 1, i requires 0 <= i <= |calls| =>
      if i == 0 then q.Pending() else Remaining(QueryAfter(q, calls[..i - 1]), calls[i - 1].page))
  }

  /** Only the cursor changes from page to page. */
  lemma {:induction false} SameQuery(q: Query, calls: seq<Call>)
    ensures QueryAfter(q, calls) == q.(cursor := QueryAfter(q, calls).cursor)
  {
    if calls != [] { SameQuery(q, calls[..|calls| - 1]); }
  }

  lemma CursorCarriesOver(q: Query, calls: seq<Call>, i: nat)
    requires i < |calls| && (i > 0 ==> !calls[i - 1].page.complete)
    ensures QueryAfter(q, calls[..i]).Pending() == Left(q, calls)[i]
  {
    if i > 0 {
      assert calls[..i][..i - 1] == calls[..i - 1];
    } else {
      assert calls[..0] == [];
    }
  }

  lemma StepOfTheSame(remote: Remote, q: Query, other: Query, before: seq<Interval>, after: seq<Interval>, e: Outcome)
    requires ScanStep(remote, other, before, after, e) && other == q.(cursor := other.cursor)
    ensures ScanStep(remote, q, before, after, e)
  {
    if e.Verified? {
      forall id ensures Wanted(remote, q, e.interval, id) <==> Wanted(remote, other, e.interval, id) {}
      forall r ensures Carriers(remote, q, e.interval, r) == Carriers(remote, other, e.interval, r) {}
      assert ReadsOut(remote, other, e.interval, e.requests);
    }
  }

  /** The pages of a scan are a scan. */
  lemma PagesAreScan(remote: Remote, q: Query, calls: seq<Call>)
    requires Faithful(remote) && Pages(remote, q, calls)
    ensures Scan(remote, q, Left(q, calls), Outcomes(q, calls))
  {
    hide Answered, ScanStep, QueryAfter, OutcomeOf, Remaining, Faithful;
    var pending, outcomes := Left(q, calls), Outcomes(q, calls);
    forall i {:trigger outcomes[i]} | 0 <= i < |outcomes|
      ensures ScanStep(remote, q, pending[i], pending[i + 1], outcomes[i])
    {
      var now := QueryAfter(q, calls[..i]);
      assert Answered(remote, now, calls[i]);
      if i > 0 { assert !calls[i - 1].page.complete; }
      PageIsScanStep(remote, now, calls[i]);
      CursorCarriesOver(q, calls, i);
      SameQuery(q, calls[..i]);
      StepOfTheSame(remote, q, now, pending[i], pending[i + 1], outcomes[i]);
    }
  }

  lemma CompletePagesLeaveNothing(remote: Remote, q: Query, calls: seq<Call>)
    requires Pages(remote, q, calls) && q.cursor.NoCursor? && calls != [] && calls[|calls| - 1].page.complete
    ensures Left(q, calls)[0] == q.Whole() && |Outcomes(q, calls)| == |calls| && Left(q, calls)[|calls|] == []
  {
    hide Returns, LooksUp, Answers, QueryAfter;
    var last := |calls| - 1;
    assert Left(q, calls)[0] == q.Pending();
    assert Answered(remote, QueryAfter(q, calls[..last]), calls[last]);
    assert Handles(QueryAfter(q, calls[..last]), calls[last].page);
    assert Left(q, calls)[last + 1] == Remaining(QueryAfter(q, calls[..last]), calls[last].page);
  }

  lemma VerifiedIsReturned(q: Query, calls: seq<Call>, i: nat)
    requires i < |Outcomes(q, calls)| && Outcomes(q, calls)[i].Verified?
    ensures i < |calls| && !calls[i].page.failed && calls[i].page.requests == Outcomes(q, calls)[i].requests
  {
  }

  /** Pages called for until one is complete have returned every managed request of the graph in the whole interval. */
  lemma CompletePagesMissNothing(remote: Remote, q: Query, calls: seq<Call>, id: int)
    requires Faithful(remote) && Pages(remote, q, calls) && q.cursor.NoCursor?
    requires calls != [] && calls[|calls| - 1].page.complete
    requires Wanted(remote, q, Interval(q.Start(), q.through), id)
    ensures exists i :: 0 <= i < |calls| && !calls[i].page.failed && remote[id].managed.value in calls[i].page.requests
  {
    hide Faithful, Pages, Left, Outcomes, Scan;
    CompletePagesLeaveNothing(remote, q, calls);
    PagesAreScan(remote, q, calls);
    CompleteScanMissesNothing(remote, q, Left(q, calls), Outcomes(q, calls), id);
    var i :| 0 <= i < |Outcomes(q, calls)| && Outcomes(q, calls)[i].Verified?
             && remote[id].managed.value in Outcomes(q, calls)[i].requests;
    VerifiedIsReturned(q, calls, i);
  }
}
