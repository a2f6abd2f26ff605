/**
 * One graph's notes ref as a compare-and-swap register, and the writer that
 * caches its tip.
 *
 * Commits are terms, as their object names are digests of their contents. Other
 * writers append to the ref at any instant; how much they append, and which
 * commands fail, is a parameter of every operation.
 */
module Notes {
  import opened Basics
  import opened Model

  datatype Commit<T> = Commit(parent: Option<Commit<T>>, anchor: Oid, data: T, stamp: nat)

  /** What the ref points at; nothing before the first note. */
  type Tip<T> = Option<Commit<T>>

  function Depth<T>(tip: Tip<T>): nat {
    if tip.None? then 0 else 1 + Depth(tip.value.parent)
  }

  /** later is earlier with commits appended. */
  predicate Descends<T(==)>(later: Tip<T>, earlier: Tip<T>) {
    later == earlier || (later.Some? && Descends(later.value.parent, earlier))
  }

  lemma {:induction false} DescendsDeeper<T>(later: Tip<T>, earlier: Tip<T>)
    requires Descends(later, earlier)
    ensures Depth(later) >= Depth(earlier) && (Depth(later) == Depth(earlier) ==> later == earlier)
  {
    if later != earlier { DescendsDeeper(later.value.parent, earlier); }
  }

  lemma {:induction false} DescendsTransitive<T>(a: Tip<T>, b: Tip<T>, c: Tip<T>)
    requires Descends(a, b) && Descends(b, c)
    ensures Descends(a, c)
  {
    if a != b { DescendsTransitive(a.value.parent, b, c); }
  }

  lemma {:induction false} EverythingDescendsFromNothing<T>(tip: Tip<T>)
    ensures Descends(tip, None)
  {
    if tip.Some? { EverythingDescendsFromNothing(tip.value.parent); }
  }

  /** An appended-to ref never comes back to an earlier tip. */
  lemma NeverBack<T>(a: Tip<T>, b: Tip<T>, c: Tip<T>)
    requires Descends(b, a) && Descends(c, b) && b != a
    ensures c != a
  {
    DescendsDeeper(b, a);
    DescendsDeeper(c, b);
  }

  // ------------------------------------------------------------- the other writers

  datatype Entry<T> = Entry(anchor: Oid, data: T, stamp: nat)

  /** What other writers append, in order. */
  function Grow<T>(tip: Tip<T>, entries: seq<Entry<T>>): Tip<T>
    decreases |entries|
  {
    if entries == [] then tip
    else Grow(Some(Commit(tip, entries[0].anchor, entries[0].data, entries[0].stamp)), entries[1..])
  }

  lemma {:induction false} GrowDescends<T>(tip: Tip<T>, entries: seq<Entry<T>>)
    ensures Descends(Grow(tip, entries), tip)
    decreases |entries|
  {
    if entries != [] {
      var one := Some(Commit(tip, entries[0].anchor, entries[0].data, entries[0].stamp));
      GrowDescends(one, entries[1..]);
      DescendsTransitive(Grow(tip, entries), one, tip);
    }
  }

  /** One read: what others append before the advertisement and before the fetch, and which of the two fails. */
  datatype Look<T> = Look(before: seq<Entry<T>>, listed: bool, between: seq<Entry<T>>, fetched: bool)

  /** A push the server accepted may go unheard. */
  datatype Answer = Heard | Denied | Unheard

  datatype AnchorCheck = IsCommit | NotCommit | FetchFails

  datatype Weather<T> = Weather(
    first: Look<T>, anchor: AnchorCheck, others: seq<Entry<T>>, answer: Answer, again: Look<T>)

  predicate Clear<T>(look: Look<T>) {
    look.listed && look.fetched
  }

  /** The ref when it is advertised, and when the read is over. */
  function Listed<T>(tip: Tip<T>, look: Look<T>): Tip<T> {
    Grow(tip, look.before)
  }

  function After<T>(tip: Tip<T>, look: Look<T>): Tip<T> {
    Grow(Listed(tip, look), look.between)
  }

  // ------------------------------------------------------------------------ the spec

  datatype NotesError = Absent | Conflict | Invalid | Unreachable

  datatype Written<T> = Wrote(tip: Commit<T>) | Failed(error: NotesError)

  /** The ref when the push arrives. */
  function AtPush<T>(tip: Tip<T>, w: Weather<T>): Tip<T> {
    Grow(After(tip, w.first), w.others)
  }

  /** Whether the push moves the ref: the lease holds and the server allows it. */
  predicate Lands<T(==)>(tip: Tip<T>, expected: Tip<T>, w: Weather<T>) {
    AtPush(tip, w) == expected && w.answer != Denied
  }

  function Pushed<T(==)>(tip: Tip<T>, expected: Tip<T>, commit: Commit<T>, w: Weather<T>): Tip<T> {
    if Lands(tip, expected, w) then Some(commit) else AtPush(tip, w)
  }

  /** The ref only moves forward while a write is under way. */
  lemma WeatherOnlyAppends<T>(tip: Tip<T>, w: Weather<T>)
    ensures Descends(Listed(tip, w.first), tip) && Descends(After(tip, w.first), Listed(tip, w.first))
    ensures Descends(AtPush(tip, w), After(tip, w.first)) && Descends(AtPush(tip, w), Listed(tip, w.first))
    ensures Descends(AtPush(tip, w), tip)
  {
    GrowDescends(tip, w.first.before);
    GrowDescends(Listed(tip, w.first), w.first.between);
    GrowDescends(After(tip, w.first), w.others);
    DescendsTransitive(AtPush(tip, w), After(tip, w.first), Listed(tip, w.first));
    DescendsTransitive(AtPush(tip, w), Listed(tip, w.first), tip);
  }

  /** A ref that has moved past a tip is never seen at it again. */
  lemma MovedStaysMoved<T>(tip: Tip<T>, past: Tip<T>, look: Look<T>)
    requires Descends(tip, past) && tip != past
    ensures Listed(tip, look) != past && After(tip, look) != past
  {
    GrowDescends(tip, look.before);
    GrowDescends(Listed(tip, look), look.between);
    DescendsTransitive(After(tip, look), Listed(tip, look), tip);
    NeverBack(past, tip, Listed(tip, look));
    NeverBack(past, tip, After(tip, look));
  }

  /** What a look without a cache sees: nothing if nothing is advertised, else the tip there is to fetch. */
  function Fetched<T>(tip: Tip<T>, look: Look<T>): Tip<T> {
    if Listed(tip, look).None? then None else After(tip, look)
  }

  lemma StillAdvertised<T>(tip: Tip<T>, expected: Tip<T>, look: Look<T>)
    requires Descends(tip, expected)
    ensures expected.Some? ==> Listed(tip, look).Some?
  {
    GrowDescends(tip, look.before);
  }

  /**
   * The writer without a cache, when the ref can be read: fetch the ref, refuse if
   * it is not the expected tip or has another anchor, push under the lease, and look
   * again to tell a lost race from a denial.
   */
  function Rereading<T(==)>(tip: Tip<T>, expected: Tip<T>, commit: Commit<T>, w: Weather<T>): Written<T> {
    if !ValidOid(commit.anchor) then Failed(Invalid)
    else if Fetched(tip, w.first) != expected then Failed(Conflict)
    else if expected.Some? && expected.value.anchor != commit.anchor then Failed(Invalid)
    else if expected.None? && w.anchor == FetchFails then Failed(Unreachable)
    else if expected.None? && w.anchor == NotCommit then Failed(Invalid)
    else if Lands(tip, expected, w) && w.answer == Heard then Wrote(commit)
    else if Listed(Pushed(tip, expected, commit, w), w.again) != expected then Failed(Conflict)
    else Failed(Unreachable)
  }

  /** Nobody else writes while the write is under way. */
  predicate Calm<T>(w: Weather<T>) {
    w.first.before == [] && w.first.between == [] && w.others == [] && w.again.before == [] && w.again.between == []
  }

  /**
   * A conflict is always a lost race: alone, a heard or denied push of the current tip's child is never reported as
   * one.
   */
  lemma LoneWriterNeverConflicts<T>(tip: Tip<T>, commit: Commit<T>, w: Weather<T>)
    requires Calm(w) && w.answer != Unheard && commit.parent == tip
    ensures Rereading(tip, tip, commit, w) != Failed(Conflict)
    ensures w.answer == Heard && ValidOid(commit.anchor)
            && (if tip.None? then w.anchor == IsCommit else tip.value.anchor == commit.anchor) ==>
              Rereading(tip, tip, commit, w) == Wrote(commit)
  {
  }

  /** Once the ref has moved past the expected tip, the writer without a cache reports the conflict. */
  lemma RaceIsLost<T>(tip: Tip<T>, expected: Tip<T>, commit: Commit<T>, w: Weather<T>)
    requires Descends(tip, expected) && After(tip, w.first) != expected
    ensures AtPush(tip, w) != expected && Listed(AtPush(tip, w), w.again) != expected
    ensures ValidOid(commit.anchor) && (expected.Some? || Listed(tip, w.first) != expected) ==>
              Rereading(tip, expected, commit, w) == Failed(Conflict)
  {
    WeatherOnlyAppends(tip, w);
    var after := After(tip, w.first);
    DescendsTransitive(after, Listed(tip, w.first), tip);
    DescendsTransitive(after, tip, expected);
    NeverBack(expected, after, AtPush(tip, w));
    DescendsTransitive(AtPush(tip, w), after, expected);
    MovedStaysMoved(AtPush(tip, w), expected, w.again);
  }

  /** After the push, a look sees the expected tip only if nothing moved, and then the cache has it. */
  lemma LookingAgainTells<T>(start: Tip<T>, expected: Tip<T>, commit: Commit<T>, w: Weather<T>, known: Tip<T>)
    requires commit.parent == expected
    requires expected.Some? ==> Descends(start, expected) && (start == expected ==> known == expected)
    ensures var tip := Grow(start, w.others);
            var pushed := if tip == expected && w.answer != Denied then Some(commit) else tip;
            && (Listed(pushed, w.again) != expected ==> After(pushed, w.again) != expected)
            && (Listed(pushed, w.again) == expected && expected.Some? ==> known == expected)
  {
    var tip := Grow(start, w.others);
    var pushed := if tip == expected && w.answer != Denied then Some(commit) else tip;
    var listed := Listed(pushed, w.again);
    GrowDescends(start, w.others);
    GrowDescends(pushed, w.again.before);
    GrowDescends(listed, w.again.between);
    DescendsDeeper(After(pushed, w.again), listed);
    DescendsDeeper(listed, pushed);
    if expected.Some? {
      DescendsTransitive(tip, start, expected);
      DescendsTransitive(listed, pushed, expected);
      DescendsDeeper(listed, expected);
      DescendsDeeper(tip, start);
      DescendsDeeper(start, expected);
    }
  }

  // ---------------------------------------------------------------------- the writer

  class Remote<T(==)> {
    var tip: Tip<T>

    constructor ()
      ensures tip == None
    {
      tip := None;
    }
  }

  datatype Snapshot<T> = Snapshot(tip: Commit<T>, anchor: Oid, data: T)

  function Ancestors<T(==)>(tip: Tip<T>): (s: set<Commit<T>>)
    ensures tip.Some? ==> tip.value in s
  {
    if tip.None? then {} else {tip.value} + Ancestors(tip.value.parent)
  }

  class NotificationNotes<T(==)> {
    const remote: Remote<T>
    /** The commits of the private database. */
    var objects: set<Commit<T>>
    var knownTip: Tip<T>
    var pushedTip: Tip<T>
    var pushedAnchor: Oid

    /** The cached tips are complete locally, and the ref has only been appended to since they were seen. */
    ghost predicate Valid()
      reads this, remote
    {
      && (knownTip.Some? ==> knownTip.value in objects && Descends(remote.tip, knownTip))
      && (pushedTip.Some? ==>
            pushedTip.value in objects && pushedTip.value.anchor == pushedAnchor && Descends(knownTip, pushedTip))
    }

    constructor (remote: Remote<T>)
      ensures Valid() && this.remote == remote
    {
      this.remote, objects, knownTip, pushedTip, pushedAnchor := remote, {}, None, None, "";
    }

    /** Other writers append. */
    method Others(entries: seq<Entry<T>>)
      requires Valid()
      modifies remote
      ensures Valid() && remote.tip == Grow(old(remote.tip), entries)
    {
      GrowDescends(remote.tip, entries);
      if knownTip.Some? { DescendsTransitive(Grow(remote.tip, entries), remote.tip, knownTip); }
      remote.tip := Grow(remote.tip, entries);
    }

    /**
     * Reads the ref; an advertised tip that is known already is not fetched. The
     * snapshot is a tip the ref had during the read.
     */
    method Read(look: Look<T>) returns (r: Result<Snapshot<T>>, error: NotesError)
      requires Valid()
      modifies `objects, `knownTip, remote
      ensures Valid() && old(objects) <= objects
      ensures remote.tip == After(old(remote.tip), look)
      ensures r.Ok? ==>
                var s := r.value;
                && s.tip in objects && s.anchor == s.tip.anchor && s.data == s.tip.data
                && look.listed && Listed(old(remote.tip), look).Some?
                && Some(s.tip) == (if Listed(old(remote.tip), look) == old(knownTip) then old(knownTip) else remote.tip)
                && knownTip == Some(s.tip)
      ensures Clear(look) ==> (r.Err? <==> Listed(old(remote.tip), look) == None) && (r.Err? ==> error == Absent)
      ensures r.Err? && error == Absent ==> Listed(old(remote.tip), look) == None && look.listed
      ensures r.Err? && error != Absent ==> error == Unreachable && !Clear(look)
    {
      error := Unreachable;
      r := Err(Basics.Unavailable);
      Others(look.before);
      var advertised := remote.tip;
      Others(look.between);
      if !look.listed { return; }
      if advertised.None? {
        error := Absent;
        r := Err(AbsentLedger);
        return;
      }
      var tip := advertised.value;
      if advertised != knownTip {
        if !look.fetched { return; }
        GrowDescends(advertised, look.between);
        DescendsDeeper(remote.tip, advertised);
        objects := objects + Ancestors(remote.tip);
        tip := remote.tip.value;
      }
      if pushedTip.Some? { DescendsTransitive(Some(tip), knownTip, pushedTip); }
      knownTip := Some(tip);
      r := Ok(Snapshot(tip, tip.anchor, tip.data));
    }

    /** Why the expected tip may not be appended to; the tip pushed last needs no read. */
    method Refusal(expected: Tip<T>, anchor: Oid, look: Look<T>) returns (refusal: Option<NotesError>)
      requires Valid()
      modifies `objects, `knownTip, remote
      ensures Valid() && old(objects) <= objects && remote.tip == After(old(remote.tip), look)
      ensures refusal.None? && expected.Some? ==>
                && expected.value in objects && expected.value.anchor == anchor && Descends(remote.tip, expected)
                && (remote.tip == expected ==> knownTip == expected)
      ensures match refusal
              case None => true
              case Some(Unreachable) => !Clear(look)
              case Some(Invalid) => expected.Some? && expected.value.anchor != anchor
              case Some(e) => e == Conflict
      ensures Descends(old(remote.tip), expected) || remote.tip != expected ==>
                && (refusal == Some(Conflict) ==> Fetched(old(remote.tip), look) != expected)
                && (refusal.None? ==> Descends(old(remote.tip), expected))
                && (refusal.None? && expected.None? ==> Listed(old(remote.tip), look).None?)
    {
      ghost var start := remote.tip;
      ghost var listed := Listed(start, look);
      GrowDescends(start, look.before);
      GrowDescends(listed, look.between);
      if Descends(start, expected) { DescendsTransitive(listed, start, expected); }
      if listed != expected && Descends(listed, expected) { NeverBack(expected, listed, After(start, look)); }
      refusal := None;
      if expected.None? || expected != pushedTip || anchor != pushedAnchor {
        var current, error := Read(look);
        if current.Err? && error != Absent { return Some(error); }
        var tip := if current.Ok? then Some(current.value.tip) else None;
        if tip != expected { return Some(Conflict); }
        if expected.Some? && current.value.anchor != anchor { return Some(Invalid); }
      } else {
        DescendsTransitive(remote.tip, knownTip, pushedTip);
        Others(look.before);
        Others(look.between);
        DescendsTransitive(remote.tip, knownTip, pushedTip);
        DescendsDeeper(remote.tip, knownTip);
        DescendsDeeper(knownTip, pushedTip);
      }
    }

    /** The push under its lease, and the look that tells a lost race from a denial. */
    method Push(expected: Tip<T>, commit: Commit<T>, w: Weather<T>) returns (r: Written<T>)
      requires Valid() && commit.parent == expected && commit in objects
      requires expected.Some? ==> Descends(remote.tip, expected) && (remote.tip == expected ==> knownTip == expected)
      modifies this, remote
      ensures Valid() && old(objects) <= objects
      ensures var tip := Grow(old(remote.tip), w.others);
              var lands := tip == expected && w.answer != Denied;
              && (r.Wrote? <==> lands && w.answer == Heard)
              && (r.Wrote? ==> r.tip == commit && remote.tip == Some(commit))
              && (r.Failed? ==> remote.tip == After(if lands then Some(commit) else tip, w.again))
              && (r.Failed? ==>
                    || (r.error == Unreachable && !Clear(w.again))
                    || (r.error == Conflict && Listed(if lands then Some(commit) else tip, w.again) != expected)
                    || (r.error == Unreachable && Listed(if lands then Some(commit) else tip, w.again) == expected))
    {
      ghost var start := remote.tip;
      Others(w.others);
      var lands := remote.tip == expected && w.answer != Denied;
      if lands {
        if knownTip.Some? { DescendsTransitive(Some(commit), expected, knownTip); }
        remote.tip := Some(commit);
      }
      if !lands || w.answer == Unheard {
        pushedTip, pushedAnchor := None, "";
        LookingAgainTells(start, expected, commit, w, knownTip);
        var latest, error := Read(w.again);
        var tip := if latest.Ok? then Some(latest.value.tip) else None;
        if (latest.Ok? || error == Absent) && tip != expected { return Failed(Conflict); }
        return Failed(Unreachable);
      }
      knownTip, pushedTip, pushedAnchor := Some(commit), Some(commit), commit.anchor;
      r := Wrote(commit);
    }

    /**
     * Appends to the expected tip. Unless the expected tip is one that the ref is only
     * about to get, the outcome is that of the writer that always reads first; or a
     * look failed, and it is that the ref is unreachable; or of two refusals, a lost
     * race and a wrong anchor, it is the other. In any case the ref moves only when
     * the push lands, by one child of the expected tip.
     */
    method Write(expected: Tip<T>, anchor: Oid, data: T, stamp: nat, w: Weather<T>) returns (r: Written<T>)
      requires Valid()
      modifies this, remote
      ensures Valid() && old(objects) <= objects
      ensures var commit := Commit(expected, anchor, data, stamp);
              && (Descends(old(remote.tip), expected) || After(old(remote.tip), w.first) != expected ==>
                    || r == Rereading(old(remote.tip), expected, commit, w)
                    || (r == Failed(Unreachable) && !(Clear(w.first) && Clear(w.again)))
                    || (r == Failed(Invalid) && Rereading(old(remote.tip), expected, commit, w) == Failed(Conflict)
                        && expected.Some? && expected.value.anchor != anchor))
              && (r.Wrote? ==> r.tip == commit && Lands(old(remote.tip), expected, w) && w.answer == Heard)
              && (r.Wrote? ==> remote.tip == Some(commit))
              && (r.Wrote? && expected.Some? ==> expected.value.anchor == anchor)
              && (r.Failed? ==>
                    || remote.tip == old(remote.tip)
                    || remote.tip == After(old(remote.tip), w.first)
                    || (!(Lands(old(remote.tip), expected, w) && w.answer == Heard)
                        && remote.tip == After(Pushed(old(remote.tip), expected, commit, w), w.again)))
    {
      ghost var start := remote.tip;
      if !ValidOid(anchor) { return Failed(Invalid); }
      ghost var commit := Commit(expected, anchor, data, stamp);
      if Descends(start, expected) {
        StillAdvertised(start, expected, w.first);
        if After(start, w.first) != expected { RaceIsLost(start, expected, commit, w); }
      }
      var refusal := Refusal(expected, anchor, w.first);
      if refusal.Some? { return Failed(refusal.value); }
      if expected.None? && w.anchor == FetchFails { return Failed(Unreachable); }
      if expected.None? && w.anchor == NotCommit { return Failed(Invalid); }
      var child := Commit(expected, anchor, data, stamp);
      objects := objects + {child};
      r := Push(expected, child, w);
    }
  }
}
